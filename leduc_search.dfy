/**
 * The depth-limited CFR subgame solver for Leduc (`CFRSolver`). Every node holds, per
 * legal action, one value per private card (six cards), so regret matching and
 * strategy averaging run hand by hand. Rounds that end without a board are leaves
 * valued by the network; a fold or a second-round showdown is terminal.
 *
 * Per-action tables are sequences indexed by the position of the action in the
 * node's action list (the source keys dictionaries by the action itself, and the
 * actions of a node are distinct).
 */
module LeducSearch {
  import opened Options
  import opened Vectors
  import opened RegretMatching
  import opened LeducRules
  import LeducFeatures

  /** The mask threshold `1e-9` of regret matching, averaging and range normalization. */
  const EPS: real := 0.000000001

  predicate IsHandVector(v: seq<real>)
  {
    |v| == NUM_CARDS
  }

  /** A per-action table of hand vectors with `n` rows. */
  predicate Shaped(t: seq<seq<real>>, n: nat)
  {
    |t| == n && Rectangular(t, NUM_CARDS)
  }

  /** The `{0: vector, 1: vector}` value dictionaries: one hand vector per player. */
  datatype Values = Values(v0: seq<real>, v1: seq<real>)
  {
    function Of(p: int): seq<real>
      requires p == 0 || p == 1
    {
      if p == 0 then v0 else v1
    }

    predicate WellSized()
    {
      IsHandVector(v0) && IsHandVector(v1)
    }
  }

  // ---------------------------------------------------------------------------
  // Nodes and their classification (`Node`, `_get_node`)
  // ---------------------------------------------------------------------------

  /** The cache key `str(history) + "_" + str(board_rank)`, as the pair it encodes. */
  datatype NodeKey = NodeKey(history: seq<int>, boardRank: Option<int>)

  datatype Node = Node(
    history: seq<int>,
    boardRank: Option<int>,
    playerToAct: int,
    validActions: seq<int>,
    regretSum: seq<seq<real>>,
    strategySum: seq<seq<real>>,
    strategy: seq<seq<real>>,
    isTerminal: bool,
    isLeaf: bool)

  predicate IsFold(history: seq<int>)
  {
    |history| > 0 && Last(history) == FOLD
  }

  /** `n` rows of zero hand vectors. */
  function ZeroTable(n: nat): (t: seq<seq<real>>)
    ensures Shaped(t, n)
    ensures forall k, h :: 0 <= k < n && 0 <= h < NUM_CARDS ==> t[k][h] == 0.0
  {
    seq(n, _ => Zeros(NUM_CARDS))
  }

  /**
   * The node `_get_node` creates for a key it has not seen: a fold is terminal, a
   * finished round is a showdown with a board and a leaf without one, and any other
   * history is a decision of player `len(history) % 2` over the legal actions.
   */
  function NewNode(key: NodeKey): (n: Node)
    ensures n.history == key.history && n.boardRank == key.boardRank
    ensures n.isTerminal || n.isLeaf <==> IsTerminalRound(key.history)
    ensures n.isTerminal <==> IsFold(key.history) || (IsTerminalRound(key.history) && key.boardRank.Some?)
    ensures n.isLeaf ==> key.boardRank.None? && !IsFold(key.history)
    ensures !(n.isTerminal && n.isLeaf)
    ensures n.isTerminal || n.isLeaf ==> n.playerToAct == -1 && n.validActions == []
    ensures !n.isTerminal && !n.isLeaf ==>
              n.playerToAct == |key.history| % 2 &&
              n.validActions == GetLegalActions(key.history, Count(key.history, BET_RAISE))
    ensures var z := ZeroTable(|n.validActions|); n.regretSum == z && n.strategySum == z && n.strategy == z
  {
    var h := key.history;
    if IsFold(h) then
      Node(h, key.boardRank, -1, [], [], [], [], true, false)
    else if IsTerminalRound(h) then
      Node(h, key.boardRank, -1, [], [], [], [], key.boardRank.Some?, key.boardRank.None?)
    else
      var valid := GetLegalActions(h, Count(h, BET_RAISE));
      var z := ZeroTable(|valid|);
      Node(h, key.boardRank, |h| % 2, valid, z, z, z, false, false)
  }

  /** A cached node keeps the classification it was created with and well-shaped tables. */
  predicate ConsistentNode(key: NodeKey, n: Node)
  {
    var created := NewNode(key);
    n.history == created.history && n.boardRank == created.boardRank &&
    n.playerToAct == created.playerToAct && n.validActions == created.validActions &&
    n.isTerminal == created.isTerminal && n.isLeaf == created.isLeaf &&
    Shaped(n.regretSum, |n.validActions|) &&
    Shaped(n.strategySum, |n.validActions|) &&
    Shaped(n.strategy, |n.validActions|)
  }

  function CachedOrNew(nodes: map<NodeKey, Node>, key: NodeKey): Node
  {
    if key in nodes then nodes[key] else NewNode(key)
  }

  /** `k` lies strictly below `root` in the game tree of `root`'s board. */
  predicate Deeper(k: NodeKey, root: NodeKey)
  {
    k.boardRank == root.boardRank &&
    |k.history| > |root.history| && k.history[..|root.history|] == root.history
  }

  function Child(key: NodeKey, a: int): NodeKey
  {
    NodeKey(key.history + [a], key.boardRank)
  }

  lemma ChildSubtreeNested(key: NodeKey, a: int, k: NodeKey)
    requires k == Child(key, a) || Deeper(k, Child(key, a))
    ensures Deeper(k, key)
  {
    if k != Child(key, a) {
      var n := |key.history|;
      assert k.history[..n + 1][..n] == k.history[..n];
    }
  }

  /** Only `root` and nodes below it may differ between the two caches. */
  ghost predicate OnlySubtreeChanged(before: map<NodeKey, Node>, after: map<NodeKey, Node>, root: NodeKey)
  {
    forall k :: k != root && !Deeper(k, root) ==>
      (k in after <==> k in before) && (k in before ==> after[k] == before[k])
  }

  lemma ChildChangesStayInSubtree(m0: map<NodeKey, Node>, m1: map<NodeKey, Node>, m2: map<NodeKey, Node>,
                                  key: NodeKey, a: int)
    requires OnlySubtreeChanged(m0, m1, key)
    requires OnlySubtreeChanged(m1, m2, Child(key, a))
    ensures OnlySubtreeChanged(m0, m2, key)
    ensures key in m1 ==> key in m2 && m2[key] == m1[key]
  {
    forall k | k != key && !Deeper(k, key)
      ensures (k in m2 <==> k in m0) && (k in m0 ==> m2[k] == m0[k])
    {
      if k == Child(key, a) || Deeper(k, Child(key, a)) {
        ChildSubtreeNested(key, a, k);
      }
    }
    assert !Deeper(key, Child(key, a));
  }

  /** Every key of the cache is `root` or lies below it. */
  ghost predicate WithinSubtree(m: map<NodeKey, Node>, root: NodeKey)
  {
    forall k :: k in m ==> k == root || Deeper(k, root)
  }

  /** A cache holding only `root`'s subtree still does after changes within that subtree. */
  lemma SubtreeChangeStaysWithin(m0: map<NodeKey, Node>, m1: map<NodeKey, Node>, root: NodeKey)
    requires WithinSubtree(m0, root) && OnlySubtreeChanged(m0, m1, root)
    ensures WithinSubtree(m1, root)
  {
  }

  /** Rewriting the root's own entry never counts as a change outside its subtree. */
  lemma RootRewriteStaysInSubtree(m0: map<NodeKey, Node>, m1: map<NodeKey, Node>, key: NodeKey,
                                  a: Node, b: Node, c: Node)
    requires OnlySubtreeChanged(m0[key := a], m1, key)
    ensures OnlySubtreeChanged(m0[key := b], m1[key := c], key)
  {
  }

  // ---------------------------------------------------------------------------
  // Regret matching per hand (`_cfr`, lines 87-97)
  // ---------------------------------------------------------------------------

  /**
   * The strategy table regret matching derives from a regret table: for every hand,
   * the column of action probabilities is `MatchRegrets` of that hand's regrets.
   */
  function MatchRegretsPerHand(regretSum: seq<seq<real>>): (s: seq<seq<real>>)
    requires Rectangular(regretSum, NUM_CARDS)
    ensures Shaped(s, |regretSum|)
    ensures |regretSum| > 0 ==>
              forall h :: 0 <= h < NUM_CARDS ==> Column(s, h) == MatchRegrets(Column(regretSum, h), EPS)
  {
    if |regretSum| == 0 then []
    else
      var s := seq(|regretSum|, k requires 0 <= k < |regretSum| =>
                     seq(NUM_CARDS, h requires 0 <= h < NUM_CARDS => MatchRegrets(Column(regretSum, h), EPS)[k]));
      assert forall h :: 0 <= h < NUM_CARDS ==> Column(s, h) == MatchRegrets(Column(regretSum, h), EPS);
      s
  }

  /** For every hand the regret-matched strategy is a probability vector over the actions. */
  lemma MatchedStrategyIsDistribution(regretSum: seq<seq<real>>, h: nat)
    requires Rectangular(regretSum, NUM_CARDS) && |regretSum| > 0 && h < NUM_CARDS
    ensures IsDistribution(Column(MatchRegretsPerHand(regretSum), h))
    ensures Sum(Positives(Column(regretSum, h))) <= EPS ==>
              forall k :: 0 <= k < |regretSum| ==> MatchRegretsPerHand(regretSum)[k][h] == 1.0 / |regretSum| as real
  {
    var s := MatchRegretsPerHand(regretSum);
    assert Column(s, h) == MatchRegrets(Column(regretSum, h), EPS);
    if Sum(Positives(Column(regretSum, h))) <= EPS {
      forall k | 0 <= k < |regretSum|
        ensures s[k][h] == 1.0 / |regretSum| as real
      {
        assert s[k][h] == Column(s, h)[k];
      }
    }
  }

  lemma PositiveSumStep(regretSum: seq<seq<real>>, k: nat, h: nat)
    requires Rectangular(regretSum, NUM_CARDS) && k < |regretSum| && h < NUM_CARDS
    ensures Sum(Positives(Column(regretSum[..k + 1], h))) ==
            Sum(Positives(Column(regretSum[..k], h))) + PositivePart(regretSum[k][h])
  {
    var before := Column(regretSum[..k], h);
    assert Column(regretSum[..k + 1], h) == before + [regretSum[k][h]];
    assert Positives(before + [regretSum[k][h]]) == Positives(before) + [PositivePart(regretSum[k][h])];
    SumAppend(Positives(before), PositivePart(regretSum[k][h]));
  }

  /** One entry of the matched strategy, as the masked division computes it. */
  lemma MatchedEntry(regretSum: seq<seq<real>>, k: nat, h: nat)
    requires Rectangular(regretSum, NUM_CARDS) && k < |regretSum| && h < NUM_CARDS
    ensures var total := Sum(Positives(Column(regretSum, h)));
            MatchRegretsPerHand(regretSum)[k][h] ==
            if total > EPS then PositivePart(regretSum[k][h]) / total else 1.0 / |regretSum| as real
  {
    var column := Column(regretSum, h);
    assert MatchRegretsPerHand(regretSum)[k][h] == Column(MatchRegretsPerHand(regretSum), h)[k];
    assert Positives(column)[k] == PositivePart(regretSum[k][h]);
  }

  /** Per hand, the total positive regret of the first `k` actions. */
  ghost function PositiveTotals(regretSum: seq<seq<real>>, k: nat): (t: seq<real>)
    requires Rectangular(regretSum, NUM_CARDS) && k <= |regretSum|
    ensures |t| == NUM_CARDS
  {
    seq(NUM_CARDS, h requires 0 <= h < NUM_CARDS => Sum(Positives(Column(regretSum[..k], h))))
  }

  /** One more action adds its positive regrets to every hand's total. */
  lemma PositiveTotalsStep(regretSum: seq<seq<real>>, k: nat)
    requires Rectangular(regretSum, NUM_CARDS) && k < |regretSum|
    ensures PositiveTotals(regretSum, k + 1) == Add(PositiveTotals(regretSum, k), Positives(regretSum[k]))
  {
    forall h | 0 <= h < NUM_CARDS
      ensures PositiveTotals(regretSum, k + 1)[h] == Add(PositiveTotals(regretSum, k), Positives(regretSum[k]))[h]
    {
      PositiveSumStep(regretSum, k, h);
    }
  }

  /** The first loop of regret matching: each action's positive regrets and their per-hand total. */
  method PositiveRegrets(regretSum: seq<seq<real>>) returns (positives: seq<seq<real>>, sumPosRegret: seq<real>)
    requires Rectangular(regretSum, NUM_CARDS)
    ensures |positives| == |regretSum|
    ensures forall k :: 0 <= k < |regretSum| ==> positives[k] == Positives(regretSum[k])
    ensures |sumPosRegret| == NUM_CARDS
    ensures forall h :: 0 <= h < NUM_CARDS ==> sumPosRegret[h] == Sum(Positives(Column(regretSum, h)))
  {
    var n := |regretSum|;
    sumPosRegret := Zeros(NUM_CARDS);
    positives := [];
    assert sumPosRegret == PositiveTotals(regretSum, 0);
    for k := 0 to n
      invariant |positives| == k
      invariant forall j :: 0 <= j < k ==> positives[j] == Positives(regretSum[j])
      invariant sumPosRegret == PositiveTotals(regretSum, k)
    {
      PositiveTotalsStep(regretSum, k);
      positives := positives + [Positives(regretSum[k])];
      sumPosRegret := Add(sumPosRegret, Positives(regretSum[k]));
    }
    assert regretSum[..n] == regretSum;
  }

  /**
   * Regret matching as `_cfr` performs it: the positive parts, then for every action
   * the masked division by the per-hand total, or `1 / |A|` where the total is at most 1e-9.
   */
  method RegretMatch(regretSum: seq<seq<real>>) returns (strategy: seq<seq<real>>)
    requires Rectangular(regretSum, NUM_CARDS)
    ensures strategy == MatchRegretsPerHand(regretSum)
  {
    var n := |regretSum|;
    var positives, sumPosRegret := PositiveRegrets(regretSum);
    ghost var matched := MatchRegretsPerHand(regretSum);
    strategy := [];
    for k := 0 to n
      invariant |strategy| == k
      invariant forall j :: 0 <= j < k ==> strategy[j] == matched[j]
    {
      var row := seq(NUM_CARDS, h requires 0 <= h < NUM_CARDS =>
                       if sumPosRegret[h] > EPS then positives[k][h] / sumPosRegret[h] else 1.0 / n as real);
      forall h | 0 <= h < NUM_CARDS
        ensures row[h] == matched[k][h]
      {
        MatchedEntry(regretSum, k, h);
      }
      strategy := strategy + [row];
    }
  }

  // ---------------------------------------------------------------------------
  // Transitions and values (`_cfr` lines 107-141, `_get_terminal_payoffs`,
  // `_get_value_net_payoffs`, `_get_average_strategy`)
  // ---------------------------------------------------------------------------

  /** The raise size: 2 before the board, 4 after. */
  function RaiseSize(boardRank: Option<int>): real
  {
    if boardRank.Some? then 4.0 else 2.0
  }

  /**
   * The bets after `actor` takes `action`: a call matches the opponent's bet when it
   * is higher, a raise puts the actor one raise size above the opponent, and a fold
   * or any other action leaves the bets as they are.
   */
  function ApplyBet(bets: Chips, actor: int, action: int, boardRank: Option<int>): (r: Chips)
    requires actor == 0 || actor == 1
    ensures r.At(1 - actor) == bets.At(1 - actor)
    ensures action == CHECK_CALL ==>
              r.At(actor) >= bets.At(actor) && r.At(actor) >= bets.At(1 - actor) &&
              (r.At(actor) == bets.At(actor) || r.At(actor) == bets.At(1 - actor))
    ensures action == CHECK_CALL && bets.At(actor) <= bets.At(1 - actor) ==> r.p0 == r.p1
    ensures action == BET_RAISE ==> r.At(actor) - r.At(1 - actor) == RaiseSize(boardRank)
    ensures action != CHECK_CALL && action != BET_RAISE ==> r == bets
  {
    var opponent := 1 - actor;
    if action == CHECK_CALL then
      var diff := bets.At(opponent) - bets.At(actor);
      if diff > 0.0 then bets.With(actor, bets.At(actor) + diff) else bets
    else if action == BET_RAISE then
      var diff := bets.At(opponent) - bets.At(actor);
      bets.With(actor, bets.At(actor) + diff + RaiseSize(boardRank))
    else
      bets
  }

  /**
   * The fold payoffs: the player who made the last action (`(len(history) - 1) % 2`)
   * loses its bet and the other player wins it, whatever the cards.
   */
  function FoldValues(history: seq<int>, bets: Chips): (v: Values)
    requires IsFold(history)
    ensures v.WellSized()
    ensures var loser := (|history| - 1) % 2;
            forall c :: 0 <= c < NUM_CARDS ==>
              v.Of(loser)[c] == -bets.At(loser) && v.Of(1 - loser)[c] == bets.At(loser)
    ensures forall c :: 0 <= c < NUM_CARDS ==> v.v0[c] + v.v1[c] == 0.0
  {
    var loser := (|history| - 1) % 2;
    var rew := GetPayoffsFromBets(bets, 1 - loser);
    Values(Fill(NUM_CARDS, rew.p0), Fill(NUM_CARDS, rew.p1))
  }

  /** Player 0's and player 1's net payoff when hand `c0` meets hand `c1`. */
  function ShowdownPayoff(bets: Chips, boardRank: Option<int>, c0: int, c1: int): Chips
  {
    GetPayoffsFromBets(bets, GetWinner(c0, c1, boardRank))
  }

  /** The terms of player 0's showdown value for hand `c0`: each opponent card but `c0` itself. */
  function ShowdownRow0(bets: Chips, boardRank: Option<int>, r1: seq<real>, c0: int): (row: seq<real>)
    requires IsHandVector(r1)
    ensures IsHandVector(row)
  {
    seq(NUM_CARDS, c1 requires 0 <= c1 < NUM_CARDS =>
          if c1 == c0 then 0.0 else r1[c1] * ShowdownPayoff(bets, boardRank, c0, c1).p0)
  }

  function ShowdownRow1(bets: Chips, boardRank: Option<int>, r0: seq<real>, c1: int): (row: seq<real>)
    requires IsHandVector(r0)
    ensures IsHandVector(row)
  {
    seq(NUM_CARDS, c0 requires 0 <= c0 < NUM_CARDS =>
          if c0 == c1 then 0.0 else r0[c0] * ShowdownPayoff(bets, boardRank, c0, c1).p1)
  }

  /**
   * The showdown values: for each own card, the payoff against every other opponent
   * card weighted by the opponent's reach. Only the identical card is excluded.
   */
  function ShowdownValues(bets: Chips, boardRank: Option<int>, r0: seq<real>, r1: seq<real>): (v: Values)
    requires IsHandVector(r0) && IsHandVector(r1)
    ensures v.WellSized()
  {
    Values(seq(NUM_CARDS, c0 requires 0 <= c0 < NUM_CARDS => Sum(ShowdownRow0(bets, boardRank, r1, c0))),
           seq(NUM_CARDS, c1 requires 0 <= c1 < NUM_CARDS => Sum(ShowdownRow1(bets, boardRank, r0, c1))))
  }

  /** `_get_terminal_payoffs` */
  function TerminalValues(history: seq<int>, boardRank: Option<int>, bets: Chips, r0: seq<real>, r1: seq<real>): (v: Values)
    requires |history| > 0 && IsHandVector(r0) && IsHandVector(r1)
    ensures v.WellSized()
    ensures IsFold(history) ==> v == FoldValues(history, bets)
    ensures !IsFold(history) ==> v == ShowdownValues(bets, boardRank, r0, r1)
  {
    if Last(history) == FOLD then FoldValues(history, bets) else ShowdownValues(bets, boardRank, r0, r1)
  }

  /** A hand's showdown value does not depend on the opponent's reach for that same card. */
  lemma ShowdownIgnoresSameCard(bets: Chips, boardRank: Option<int>, r0: seq<real>, r1: seq<real>, r1': seq<real>, c: nat)
    requires IsHandVector(r0) && IsHandVector(r1) && IsHandVector(r1') && c < NUM_CARDS
    requires forall c1 :: 0 <= c1 < NUM_CARDS && c1 != c ==> r1'[c1] == r1[c1]
    ensures ShowdownValues(bets, boardRank, r0, r1').v0[c] == ShowdownValues(bets, boardRank, r0, r1).v0[c]
  {
    var row, row' := ShowdownRow0(bets, boardRank, r1, c), ShowdownRow0(bets, boardRank, r1', c);
    forall c1 | 0 <= c1 < NUM_CARDS
      ensures row'[c1] == row[c1]
    {
    }
    assert row' == row;
  }

  /** The showdown matrix of reach-weighted payoffs to player 0. */
  function ShowdownMatrix(bets: Chips, boardRank: Option<int>, r0: seq<real>, r1: seq<real>): (m: seq<seq<real>>)
    requires IsHandVector(r0) && IsHandVector(r1)
    ensures |m| == NUM_CARDS && Rectangular(m, NUM_CARDS)
  {
    seq(NUM_CARDS, c0 requires 0 <= c0 < NUM_CARDS => Scale(r0[c0], ShowdownRow0(bets, boardRank, r1, c0)))
  }

  /** Player 0's reach-weighted showdown total is the sum of the matrix by rows. */
  lemma ShowdownTotal0(bets: Chips, boardRank: Option<int>, r0: seq<real>, r1: seq<real>)
    requires IsHandVector(r0) && IsHandVector(r1)
    ensures Dot(r0, ShowdownValues(bets, boardRank, r0, r1).v0) == Sum(RowSums(ShowdownMatrix(bets, boardRank, r0, r1)))
  {
    var v := ShowdownValues(bets, boardRank, r0, r1);
    var m := ShowdownMatrix(bets, boardRank, r0, r1);
    forall c0 | 0 <= c0 < NUM_CARDS
      ensures Mul(r0, v.v0)[c0] == RowSums(m)[c0]
    {
      SumScale(r0[c0], ShowdownRow0(bets, boardRank, r1, c0));
    }
    assert Mul(r0, v.v0) == RowSums(m);
  }

  /** Player 1's term for hand `c1` is minus column `c1` of the matrix. */
  lemma {:induction false} ShowdownColumn1(bets: Chips, boardRank: Option<int>, r0: seq<real>, r1: seq<real>, c1: nat)
    requires IsHandVector(r0) && IsHandVector(r1) && c1 < NUM_CARDS
    ensures Scale(r1[c1], ShowdownRow1(bets, boardRank, r0, c1)) ==
            Scale(-1.0, Column(ShowdownMatrix(bets, boardRank, r0, r1), c1))
  {
    var m := ShowdownMatrix(bets, boardRank, r0, r1);
    var row := ShowdownRow1(bets, boardRank, r0, c1);
    var lhs := Scale(r1[c1], row);
    var col := Column(m, c1);
    var rhs := Scale(-1.0, col);
    forall c0 | 0 <= c0 < NUM_CARDS
      ensures lhs[c0] == rhs[c0]
    {
      assert m[c0] == Scale(r0[c0], ShowdownRow0(bets, boardRank, r1, c0));
      assert col[c0] == r0[c0] * ShowdownRow0(bets, boardRank, r1, c0)[c1];
      ShowdownCrossTerm(bets, boardRank, r0, r1, c0, c1);
    }
  }

  /** One entry of the matrix seen from both players: player 1's term is minus player 0's. */
  lemma ShowdownRowEntries(bets: Chips, boardRank: Option<int>, r0: seq<real>, r1: seq<real>, c0: nat, c1: nat)
    requires IsHandVector(r0) && IsHandVector(r1) && c0 < NUM_CARDS && c1 < NUM_CARDS && c0 != c1
    ensures ShowdownRow1(bets, boardRank, r0, c1)[c0] == r0[c0] * ShowdownPayoff(bets, boardRank, c0, c1).p1
    ensures ShowdownRow0(bets, boardRank, r1, c0)[c1] == r1[c1] * ShowdownPayoff(bets, boardRank, c0, c1).p0
  {
  }

  lemma {:induction false} ShowdownCrossTerm(bets: Chips, boardRank: Option<int>, r0: seq<real>, r1: seq<real>, c0: nat, c1: nat)
    requires IsHandVector(r0) && IsHandVector(r1) && c0 < NUM_CARDS && c1 < NUM_CARDS
    ensures r1[c1] * ShowdownRow1(bets, boardRank, r0, c1)[c0] ==
            -1.0 * (r0[c0] * ShowdownRow0(bets, boardRank, r1, c0)[c1])
  {
    var u := ShowdownRow1(bets, boardRank, r0, c1)[c0];
    var w := ShowdownRow0(bets, boardRank, r1, c0)[c1];
    if c0 == c1 {
      assert u == 0.0 && w == 0.0;
    } else {
      var pay := ShowdownPayoff(bets, boardRank, c0, c1);
      assert pay.p0 + pay.p1 == 0.0;
      ShowdownRowEntries(bets, boardRank, r0, r1, c0, c1);
      ProductNegation(r1[c1], r0[c0], pay.p0, pay.p1);
    }
  }

  lemma {:induction false} ShowdownEntry1(bets: Chips, boardRank: Option<int>, r0: seq<real>, r1: seq<real>, c1: nat)
    requires IsHandVector(r0) && IsHandVector(r1) && c1 < NUM_CARDS
    ensures r1[c1] * ShowdownValues(bets, boardRank, r0, r1).v1[c1] ==
            -Sum(Column(ShowdownMatrix(bets, boardRank, r0, r1), c1))
  {
    var col := Column(ShowdownMatrix(bets, boardRank, r0, r1), c1);
    var row := ShowdownRow1(bets, boardRank, r0, c1);
    ShowdownValue1(bets, boardRank, r0, r1, c1);
    ShowdownColumn1(bets, boardRank, r0, r1, c1);
    ScaledSumsOpposite(r1[c1], row, col);
  }

  /** Player 1's showdown value for hand `c1` is the sum of its row. */
  lemma {:induction false} ShowdownValue1(bets: Chips, boardRank: Option<int>, r0: seq<real>, r1: seq<real>, c1: nat)
    requires IsHandVector(r0) && IsHandVector(r1) && c1 < NUM_CARDS
    ensures ShowdownValues(bets, boardRank, r0, r1).v1[c1] == Sum(ShowdownRow1(bets, boardRank, r0, c1))
  {
  }

  /** When `a` times one vector is minus another, `a` times its sum is minus the other's. */
  lemma {:induction false} ScaledSumsOpposite(a: real, row: seq<real>, col: seq<real>)
    requires Scale(a, row) == Scale(-1.0, col)
    ensures a * Sum(row) == -Sum(col)
  {
    SumScale(a, row);
    SumScale(-1.0, col);
  }

  /** Player 1's reach-weighted showdown total is minus the sum of the matrix by columns. */
  lemma ShowdownTotal1(bets: Chips, boardRank: Option<int>, r0: seq<real>, r1: seq<real>)
    requires IsHandVector(r0) && IsHandVector(r1)
    ensures Dot(r1, ShowdownValues(bets, boardRank, r0, r1).v1) ==
            -Sum(ColumnSums(ShowdownMatrix(bets, boardRank, r0, r1), NUM_CARDS))
  {
    var v := ShowdownValues(bets, boardRank, r0, r1);
    var m := ShowdownMatrix(bets, boardRank, r0, r1);
    var sums := ColumnSums(m, NUM_CARDS);
    forall c1 | 0 <= c1 < NUM_CARDS
      ensures Mul(r1, v.v1)[c1] == Scale(-1.0, sums)[c1]
    {
      ShowdownEntry1(bets, boardRank, r0, r1, c1);
    }
    assert Mul(r1, v.v1) == Scale(-1.0, sums);
    SumScale(-1.0, sums);
  }

  /**
   * The showdown is zero-sum in expectation: weighting each player's values by its own
   * reach, the two totals cancel.
   */
  lemma ShowdownZeroSum(bets: Chips, boardRank: Option<int>, r0: seq<real>, r1: seq<real>)
    requires IsHandVector(r0) && IsHandVector(r1)
    ensures var v := ShowdownValues(bets, boardRank, r0, r1);
            Dot(r0, v.v0) + Dot(r1, v.v1) == 0.0
  {
    ShowdownTotal0(bets, boardRank, r0, r1);
    ShowdownTotal1(bets, boardRank, r0, r1);
    SumExchange(ShowdownMatrix(bets, boardRank, r0, r1), NUM_CARDS);
  }

  lemma ProductNegation(a: real, b: real, x: real, y: real)
    requires x + y == 0.0
    ensures a * (b * y) == -1.0 * (b * (a * x))
  {
    assert y == -x;
  }

  /** `r / r.sum()` when the sum exceeds 1e-9, else the range unchanged. */
  function NormalizeRange(r: seq<real>): (n: seq<real>)
    ensures |n| == |r|
    ensures Sum(r) > EPS ==> Sum(n) == 1.0
    ensures Sum(r) > EPS && NonNegative(r) ==> IsDistribution(n)
    ensures Sum(r) <= EPS ==> n == r
  {
    if Sum(r) > EPS then
      SumDivideBy(r, Sum(r));
      DivideSelf(Sum(r));
      if NonNegative(r) then NormalizedIsDistribution(r); DivideBy(r, Sum(r))
      else DivideBy(r, Sum(r))
    else r
  }

  /** The value network's output: one row of twelve values (six per player) per board rank. */
  type ValueOutput = v: seq<seq<real>> | |v| == 3 && Rectangular(v, 12)
    witness [Zeros(12), Zeros(12), Zeros(12)]

  /** The network as an uninterpreted function of the three stacked feature vectors. */
  type ValueNet = seq<seq<real>> -> ValueOutput

  /** The chance of board rank `b` given own card `c`: 1/5 when they pair, else 2/5. */
  function BoardWeight(b: int, c: int): real
  {
    if c / 2 == b then 1.0 / 5.0 else 2.0 / 5.0
  }

  /** For every card the three board weights form a probability distribution. */
  lemma BoardWeightsSumToOne(c: int)
    requires 0 <= c < NUM_CARDS
    ensures BoardWeight(0, c) + BoardWeight(1, c) + BoardWeight(2, c) == 1.0
  {
  }

  /** The board-weighted average of the network's per-board predictions for player `p`. */
  function LeafAggregate(v: ValueOutput, p: int): (vals: seq<real>)
    requires p == 0 || p == 1
    ensures IsHandVector(vals)
  {
    seq(NUM_CARDS, c requires 0 <= c < NUM_CARDS =>
          BoardWeight(0, c) * v[0][6 * p + c] + BoardWeight(1, c) * v[1][6 * p + c] + BoardWeight(2, c) * v[2][6 * p + c])
  }

  /** A leaf value lies between the smallest and the largest prediction over the boards. */
  lemma LeafAggregateBetween(v: ValueOutput, p: int, c: int, lo: real, hi: real)
    requires p == 0 || p == 1
    requires 0 <= c < NUM_CARDS
    requires forall b :: 0 <= b < 3 ==> lo <= v[b][6 * p + c] <= hi
    ensures lo <= LeafAggregate(v, p)[c] <= hi
  {
    BoardWeightsSumToOne(c);
    var x0, x1, x2 := v[0][6 * p + c], v[1][6 * p + c], v[2][6 * p + c];
    var w0, w1, w2 := BoardWeight(0, c), BoardWeight(1, c), BoardWeight(2, c);
    assert LeafAggregate(v, p)[c] == w0 * x0 + w1 * x1 + w2 * x2;
    MulMonotone(w0, lo, x0);
    MulMonotone(w0, x0, hi);
    MulMonotone(w1, lo, x1);
    MulMonotone(w1, x1, hi);
    MulMonotone(w2, lo, x2);
    MulMonotone(w2, x2, hi);
    assert (w0 + w1 + w2) * lo == w0 * lo + w1 * lo + w2 * lo;
    assert (w0 + w1 + w2) * hi == w0 * hi + w1 * hi + w2 * hi;
  }

  /** The network's inputs at a leaf: normalized ranges, each board rank, no history, the pot. */
  function LeafInputs(bets: Chips, r0: seq<real>, r1: seq<real>): (inputs: seq<seq<real>>)
    ensures |inputs| == 3
  {
    var pot := bets.p0 + bets.p1;
    var nr0 := NormalizeRange(r0);
    var nr1 := NormalizeRange(r1);
    seq(3, b requires 0 <= b < 3 => LeducFeatures.Features(nr0, nr1, Some(b), [], pot))
  }

  /** `_get_value_net_payoffs` */
  function LeafValues(net: ValueNet, bets: Chips, r0: seq<real>, r1: seq<real>): (v: Values)
    ensures v.WellSized()
    ensures var out := net(LeafInputs(bets, r0, r1));
            v.v0 == LeafAggregate(out, 0) && v.v1 == LeafAggregate(out, 1)
  {
    var out := net(LeafInputs(bets, r0, r1));
    Values(LeafAggregate(out, 0), LeafAggregate(out, 1))
  }

  /**
   * The average strategy of a node (`_get_average_strategy`): for every hand, the
   * column of strategy sums normalized when its total exceeds 1e-9, else uniform.
   */
  function AverageStrategy(strategySum: seq<seq<real>>): (avg: seq<seq<real>>)
    requires Rectangular(strategySum, NUM_CARDS)
    ensures Shaped(avg, |strategySum|)
    ensures |strategySum| > 0 ==>
              forall h :: 0 <= h < NUM_CARDS ==> Column(avg, h) == AverageOf(Column(strategySum, h), EPS)
  {
    if |strategySum| == 0 then []
    else
      var avg := seq(|strategySum|, k requires 0 <= k < |strategySum| =>
                       seq(NUM_CARDS, h requires 0 <= h < NUM_CARDS => AverageOf(Column(strategySum, h), EPS)[k]));
      assert forall h :: 0 <= h < NUM_CARDS ==> Column(avg, h) == AverageOf(Column(strategySum, h), EPS);
      avg
  }

  /** With non-negative strategy sums the average strategy is a distribution for every hand. */
  lemma AverageStrategyIsDistribution(strategySum: seq<seq<real>>, h: nat)
    requires Rectangular(strategySum, NUM_CARDS) && |strategySum| > 0 && h < NUM_CARDS
    requires forall k :: 0 <= k < |strategySum| ==> NonNegative(strategySum[k])
    ensures IsDistribution(Column(AverageStrategy(strategySum), h))
  {
    var column := Column(strategySum, h);
    assert Column(AverageStrategy(strategySum), h) == AverageOf(column, EPS);
    assert NonNegative(column);
  }

  /** Player `p`'s value vectors, one per action. */
  function PlayerTable(evActions: seq<Values>, p: int): (t: seq<seq<real>>)
    requires p == 0 || p == 1
    ensures |t| == |evActions|
    ensures forall k :: 0 <= k < |evActions| ==> t[k] == evActions[k].Of(p)
  {
    seq(|evActions|, k requires 0 <= k < |evActions| => evActions[k].Of(p))
  }

  predicate AllWellSized(evActions: seq<Values>)
  {
    forall k :: 0 <= k < |evActions| ==> evActions[k].WellSized()
  }

  /** For every hand, the strategy-weighted sum of the per-action values. */
  function Expectation(strategy: seq<seq<real>>, values: seq<seq<real>>): (e: seq<real>)
    requires Rectangular(strategy, NUM_CARDS) && Rectangular(values, NUM_CARDS) && |strategy| == |values|
    ensures IsHandVector(e)
    ensures forall h :: 0 <= h < NUM_CARDS ==> e[h] == Dot(Column(strategy, h), Column(values, h))
  {
    seq(NUM_CARDS, h requires 0 <= h < NUM_CARDS => Dot(Column(strategy, h), Column(values, h)))
  }

  /** `node_ev`: both players' values under the strategy. */
  function NodeEv(strategy: seq<seq<real>>, evActions: seq<Values>): (v: Values)
    requires Shaped(strategy, |evActions|) && AllWellSized(evActions)
    ensures v.WellSized()
  {
    Values(Expectation(strategy, PlayerTable(evActions, 0)), Expectation(strategy, PlayerTable(evActions, 1)))
  }

  /** The loop of `_cfr` and `_compute_ev` that accumulates `node_ev` action by action. */
  method AccumulateNodeEv(strategy: seq<seq<real>>, evActions: seq<Values>) returns (nodeEv: Values)
    requires Shaped(strategy, |evActions|) && AllWellSized(evActions)
    ensures nodeEv == NodeEv(strategy, evActions)
  {
    ghost var t0, t1 := PlayerTable(evActions, 0), PlayerTable(evActions, 1);
    var ev0 := Zeros(NUM_CARDS);
    var ev1 := Zeros(NUM_CARDS);
    for k := 0 to |evActions|
      invariant ev0 == Expectation(strategy[..k], t0[..k])
      invariant ev1 == Expectation(strategy[..k], t1[..k])
    {
      ExpectationStep(strategy, t0, k);
      ExpectationStep(strategy, t1, k);
      ev0 := Add(ev0, Mul(strategy[k], evActions[k].v0));
      ev1 := Add(ev1, Mul(strategy[k], evActions[k].v1));
    }
    assert strategy[..|evActions|] == strategy && t0[..|evActions|] == t0 && t1[..|evActions|] == t1;
    nodeEv := Values(ev0, ev1);
  }

  lemma ExpectationStep(strategy: seq<seq<real>>, values: seq<seq<real>>, k: nat)
    requires Shaped(strategy, |values|) && Shaped(values, |values|) && k < |values|
    ensures Expectation(strategy[..k + 1], values[..k + 1]) ==
            Add(Expectation(strategy[..k], values[..k]), Mul(strategy[k], values[k]))
  {
    var lhs := Expectation(strategy[..k + 1], values[..k + 1]);
    var rhs := Add(Expectation(strategy[..k], values[..k]), Mul(strategy[k], values[k]));
    forall h | 0 <= h < NUM_CARDS
      ensures lhs[h] == rhs[h]
    {
      ColumnAppend(strategy, k, h);
      ColumnAppend(values, k, h);
      DotAppend(Column(strategy[..k], h), Column(values[..k], h), strategy[k][h], values[k][h]);
    }
  }

  /** The per-action regret increments `ev_a[p] - node_ev[p]`, not weighted by reach. */
  function RegretIncrements(evActions: seq<Values>, nodeEv: Values, p: int): (t: seq<seq<real>>)
    requires AllWellSized(evActions) && nodeEv.WellSized() && (p == 0 || p == 1)
    ensures Shaped(t, |evActions|)
    ensures forall k :: 0 <= k < |evActions| ==> t[k] == Sub(evActions[k].Of(p), nodeEv.Of(p))
  {
    seq(|evActions|, k requires 0 <= k < |evActions| => Sub(evActions[k].Of(p), nodeEv.Of(p)))
  }

  lemma IncrementColumn(evActions: seq<Values>, nodeEv: Values, p: int, h: nat)
    requires AllWellSized(evActions) && nodeEv.WellSized() && (p == 0 || p == 1) && h < NUM_CARDS
    ensures Column(RegretIncrements(evActions, nodeEv, p), h) ==
            Sub(Column(PlayerTable(evActions, p), h), Fill(|evActions|, nodeEv.Of(p)[h]))
  {
  }

  /**
   * The increments balance: for every hand, weighting each action's regret increment
   * by the strategy that produced `node_ev` gives zero.
   */
  lemma RegretIncrementsBalance(strategy: seq<seq<real>>, evActions: seq<Values>, p: int, h: nat)
    requires Shaped(strategy, |evActions|) && AllWellSized(evActions) && (p == 0 || p == 1) && h < NUM_CARDS
    requires Sum(Column(strategy, h)) == 1.0
    ensures Dot(Column(strategy, h), Column(RegretIncrements(evActions, NodeEv(strategy, evActions), p), h)) == 0.0
  {
    var nodeEv := NodeEv(strategy, evActions);
    var values := Column(PlayerTable(evActions, p), h);
    var c := nodeEv.Of(p)[h];
    assert c == Dot(Column(strategy, h), values);
    IncrementColumn(evActions, nodeEv, p, h);
    DotShift(Column(strategy, h), values, c);
  }

  /** Row-wise sum of two tables of the same shape. */
  function AddRows(t: seq<seq<real>>, u: seq<seq<real>>): (r: seq<seq<real>>)
    requires Shaped(t, |u|) && Shaped(u, |u|)
    ensures Shaped(r, |u|)
    ensures forall k :: 0 <= k < |u| ==> r[k] == Add(t[k], u[k])
  {
    seq(|u|, k requires 0 <= k < |u| => Add(t[k], u[k]))
  }

  /** Each action's strategy weighted by the acting player's reach. */
  function ReachWeighted(strategy: seq<seq<real>>, reach: seq<real>): (r: seq<seq<real>>)
    requires Rectangular(strategy, NUM_CARDS) && IsHandVector(reach)
    ensures Shaped(r, |strategy|)
    ensures forall k :: 0 <= k < |strategy| ==> r[k] == Mul(strategy[k], reach)
  {
    seq(|strategy|, k requires 0 <= k < |strategy| => Mul(strategy[k], reach))
  }

  /** The last loop of `_cfr`: add the regret increments and the reach-weighted strategy. */
  method AccumulateRegrets(regretSum: seq<seq<real>>, strategySum: seq<seq<real>>, strategy: seq<seq<real>>,
                           evActions: seq<Values>, nodeEv: Values, p: int, currentRange: seq<real>)
    returns (newRegretSum: seq<seq<real>>, newStrategySum: seq<seq<real>>)
    requires Shaped(regretSum, |evActions|) && Shaped(strategySum, |evActions|) && Shaped(strategy, |evActions|)
    requires AllWellSized(evActions) && nodeEv.WellSized() && (p == 0 || p == 1) && IsHandVector(currentRange)
    ensures newRegretSum == AddRows(regretSum, RegretIncrements(evActions, nodeEv, p))
    ensures newStrategySum == AddRows(strategySum, ReachWeighted(strategy, currentRange))
  {
    newRegretSum := regretSum;
    newStrategySum := strategySum;
    for k := 0 to |evActions|
      invariant |newRegretSum| == |newStrategySum| == |evActions|
      invariant forall j :: 0 <= j < k ==> newRegretSum[j] == Add(regretSum[j], Sub(evActions[j].Of(p), nodeEv.Of(p)))
      invariant forall j :: k <= j < |evActions| ==> newRegretSum[j] == regretSum[j]
      invariant forall j :: 0 <= j < k ==> newStrategySum[j] == Add(strategySum[j], Mul(strategy[j], currentRange))
      invariant forall j :: k <= j < |evActions| ==> newStrategySum[j] == strategySum[j]
    {
      var regret := Sub(evActions[k].Of(p), nodeEv.Of(p));
      newRegretSum := newRegretSum[k := Add(newRegretSum[k], regret)];
      newStrategySum := newStrategySum[k := Add(newStrategySum[k], Mul(strategy[k], currentRange))];
    }
  }

  // ---------------------------------------------------------------------------
  // The solver (`CFRSolver`)
  // ---------------------------------------------------------------------------

  /** The node a CFR visit leaves behind at an internal node: matched strategy, updated sums. */
  function CfrUpdate(n: Node, evActions: seq<Values>, r0: seq<real>, r1: seq<real>): (updated: Node)
    requires n.playerToAct == 0 || n.playerToAct == 1
    requires Shaped(n.regretSum, |evActions|) && Shaped(n.strategySum, |evActions|) && AllWellSized(evActions)
    requires IsHandVector(r0) && IsHandVector(r1)
    ensures Shaped(updated.regretSum, |evActions|) && Shaped(updated.strategySum, |evActions|)
    ensures Shaped(updated.strategy, |evActions|)
  {
    var s := MatchRegretsPerHand(n.regretSum);
    var p := n.playerToAct;
    var currentRange := if p == 0 then r0 else r1;
    n.(strategy := s,
       regretSum := AddRows(n.regretSum, RegretIncrements(evActions, NodeEv(s, evActions), p)),
       strategySum := AddRows(n.strategySum, ReachWeighted(s, currentRange)))
  }

  /**
   * The tail of `_cfr` at a decision node: the node's value under the matched strategy,
   * and the node with that strategy, its regrets and its reach-weighted strategy sum.
   */
  method UpdateNode(n0: Node, strategy: seq<seq<real>>, evActions: seq<Values>, r0: seq<real>, r1: seq<real>)
    returns (nodeEv: Values, updated: Node)
    requires n0.playerToAct == 0 || n0.playerToAct == 1
    requires Shaped(n0.regretSum, |evActions|) && Shaped(n0.strategySum, |evActions|) && AllWellSized(evActions)
    requires strategy == MatchRegretsPerHand(n0.regretSum)
    requires IsHandVector(r0) && IsHandVector(r1)
    ensures nodeEv == NodeEv(MatchRegretsPerHand(n0.regretSum), evActions)
    ensures updated == CfrUpdate(n0, evActions, r0, r1)
  {
    nodeEv := AccumulateNodeEv(strategy, evActions);
    var actor := n0.playerToAct;
    var currentRange := if actor == 0 then r0 else r1;
    var regretSum, strategySum :=
      AccumulateRegrets(n0.regretSum, n0.strategySum, strategy, evActions, nodeEv, actor, currentRange);
    updated := n0.(strategy := strategy, regretSum := regretSum, strategySum := strategySum);
  }

  /** The cache keeps every node it had and adds only freshly created ones. */
  ghost predicate CacheOnlyGrows(before: map<NodeKey, Node>, after: map<NodeKey, Node>)
  {
    (forall k :: k in before ==> k in after && after[k] == before[k]) &&
    (forall k :: k in after && k !in before ==> after[k] == NewNode(k))
  }

  lemma NewNodeConsistent(key: NodeKey)
    ensures ConsistentNode(key, NewNode(key))
  {
  }

  // ---------------------------------------------------------------------------
  // Reference definitions of the solver's recursions
  // ---------------------------------------------------------------------------

  /** Every cached node is consistent with its key. */
  ghost predicate AllConsistent(m: map<NodeKey, Node>)
  {
    forall k :: k in m ==> ConsistentNode(k, m[k])
  }

  lemma CachedConsistent(m: map<NodeKey, Node>, key: NodeKey)
    requires AllConsistent(m)
    ensures ConsistentNode(key, CachedOrNew(m, key))
  {
    NewNodeConsistent(key);
  }

  lemma InsertConsistent(m: map<NodeKey, Node>, key: NodeKey, n: Node)
    requires AllConsistent(m) && ConsistentNode(key, n)
    ensures AllConsistent(m[key := n])
  {
  }

  lemma MatchedNodeConsistent(key: NodeKey, n0: Node)
    requires ConsistentNode(key, n0)
    ensures ConsistentNode(key, n0.(strategy := MatchRegretsPerHand(n0.regretSum)))
  {
  }

  lemma UpdatedNodeConsistent(key: NodeKey, n0: Node, evActions: seq<Values>, r0: seq<real>, r1: seq<real>)
    requires ConsistentNode(key, n0) && !n0.isTerminal && !n0.isLeaf
    requires |evActions| == |n0.validActions| && AllWellSized(evActions) && IsHandVector(r0) && IsHandVector(r1)
    ensures ConsistentNode(key, CfrUpdate(n0, evActions, r0, r1))
  {
  }

  /** The reach passed to a child: the actor's reach times its probabilities for the action. */
  function ChildReach(reach: seq<real>, isActor: bool, probs: seq<real>): (c: seq<real>)
    requires IsHandVector(reach) && IsHandVector(probs)
    ensures IsHandVector(c)
    ensures isActor ==> forall h :: 0 <= h < NUM_CARDS ==> c[h] == reach[h] * probs[h]
    ensures !isActor ==> c == reach
  {
    if isActor then Mul(reach, probs) else reach
  }

  /** What a CFR visit returns (`node_ev` and the per-action values) and leaves in the cache. */
  datatype Visit = Visit(ev: Values, evActions: seq<Values>, nodes: map<NodeKey, Node>)

  /** The per-action values of the first actions of a node and the cache after visiting them. */
  datatype Children = Children(evActions: seq<Values>, nodes: map<NodeKey, Node>)

  /**
   * One CFR visit of the subtree at `key` from cache `m`, as `_cfr` performs it: the node
   * is fetched or created; a terminal node gives its payoffs and a leaf the network's
   * values; a decision node takes the matched strategy, visits its children in order,
   * and stores the strategy and the updated sums. A cached node that does not fit its
   * key (which a cache the solver keeps never holds) is left as it is, with zero values.
   */
  ghost function CfrVisit(net: ValueNet, m: map<NodeKey, Node>, key: NodeKey, bets: Chips,
                          r0: seq<real>, r1: seq<real>): (v: Visit)
    requires IsHandVector(r0) && IsHandVector(r1)
    ensures key in v.nodes && v.ev.WellSized()
    decreases Potential(key.history), 1, 0
  {
    var n0 := CachedOrNew(m, key);
    if !ConsistentNode(key, n0) then Visit(Values(Zeros(NUM_CARDS), Zeros(NUM_CARDS)), [], m[key := n0])
    else if n0.isTerminal then Visit(TerminalValues(key.history, key.boardRank, bets, r0, r1), [], m[key := n0])
    else if n0.isLeaf then Visit(LeafValues(net, bets, r0, r1), [], m[key := n0])
    else
      var n := n0.(strategy := MatchRegretsPerHand(n0.regretSum));
      MatchedNodeConsistent(key, n0);
      var children := CfrChildren(net, m[key := n], key, n, bets, r0, r1, |n.validActions|);
      var updated := CfrUpdate(n0, children.evActions, r0, r1);
      Visit(NodeEv(n.strategy, children.evActions), children.evActions, children.nodes[key := updated])
  }

  /** A CFR visit of a decision node consistent with its key, unfolded one level. */
  lemma CfrVisitAtDecision(net: ValueNet, m: map<NodeKey, Node>, key: NodeKey, bets: Chips,
                           r0: seq<real>, r1: seq<real>, n0: Node, n: Node)
    requires IsHandVector(r0) && IsHandVector(r1)
    requires n0 == CachedOrNew(m, key) && ConsistentNode(key, n0) && !n0.isTerminal && !n0.isLeaf
    requires n == n0.(strategy := MatchRegretsPerHand(n0.regretSum)) && ConsistentNode(key, n)
    ensures var c := CfrChildren(net, m[key := n], key, n, bets, r0, r1, |n.validActions|);
            CfrVisit(net, m, key, bets, r0, r1) ==
            Visit(NodeEv(n.strategy, c.evActions), c.evActions, c.nodes[key := CfrUpdate(n0, c.evActions, r0, r1)])
  {
  }

  /**
   * What one visit leaves at a decision node first read as `n0`: one value per action, a
   * stored strategy that is a distribution over the actions for hand `h`, a node value
   * weighted by that strategy, and regrets grown by the per-action increments, which
   * balance to zero under the strategy.
   */
  ghost predicate BalancedVisit(n0: Node, key: NodeKey, v: Visit, h: nat)
    requires h < NUM_CARDS
  {
    key in v.nodes &&
    var n := v.nodes[key];
    |v.evActions| == |n0.validActions| && AllWellSized(v.evActions) && v.ev.WellSized() &&
    (n0.playerToAct == 0 || n0.playerToAct == 1) && Shaped(n0.regretSum, |v.evActions|) &&
    Shaped(n.strategy, |v.evActions|) && Shaped(n.regretSum, |v.evActions|) &&
    v.ev == NodeEv(n.strategy, v.evActions) &&
    IsDistribution(Column(n.strategy, h)) &&
    n.regretSum == AddRows(n0.regretSum, RegretIncrements(v.evActions, v.ev, n0.playerToAct)) &&
    Dot(Column(n.strategy, h), Column(RegretIncrements(v.evActions, v.ev, n0.playerToAct), h)) == 0.0
  }

  /** The update at the end of `_cfr` leaves a balanced decision node, whatever the children. */
  lemma UpdateBalances(key: NodeKey, n0: Node, nodes: map<NodeKey, Node>, evActions: seq<Values>,
                       r0: seq<real>, r1: seq<real>, h: nat)
    requires ConsistentNode(key, n0) && |n0.validActions| > 0 && h < NUM_CARDS
    requires n0.playerToAct == 0 || n0.playerToAct == 1
    requires |evActions| == |n0.validActions| && AllWellSized(evActions)
    requires IsHandVector(r0) && IsHandVector(r1)
    ensures BalancedVisit(n0, key, Visit(NodeEv(MatchRegretsPerHand(n0.regretSum), evActions), evActions,
                                         nodes[key := CfrUpdate(n0, evActions, r0, r1)]), h)
  {
    var strategy := MatchRegretsPerHand(n0.regretSum);
    MatchedStrategyIsDistribution(n0.regretSum, h);
    RegretIncrementsBalance(strategy, evActions, n0.playerToAct, h);
  }

  /** One visit of a decision node leaves it balanced. */
  lemma VisitedDecisionNode(net: ValueNet, m: map<NodeKey, Node>, key: NodeKey, bets: Chips,
                            r0: seq<real>, r1: seq<real>, h: nat)
    requires IsHandVector(r0) && IsHandVector(r1) && h < NUM_CARDS
    requires ConsistentNode(key, CachedOrNew(m, key))
    requires !CachedOrNew(m, key).isTerminal && !CachedOrNew(m, key).isLeaf
    requires |CachedOrNew(m, key).validActions| > 0
    ensures BalancedVisit(CachedOrNew(m, key), key, CfrVisit(net, m, key, bets, r0, r1), h)
  {
    var n0 := CachedOrNew(m, key);
    var matched := n0.(strategy := MatchRegretsPerHand(n0.regretSum));
    MatchedNodeConsistent(key, n0);
    var c := CfrChildren(net, m[key := matched], key, matched, bets, r0, r1, |matched.validActions|);
    UpdateBalances(key, n0, c.nodes, c.evActions, r0, r1, h);
    CfrVisitAtDecision(net, m, key, bets, r0, r1, n0, matched);
  }

  /**
   * The first `j` iterations of the action loop of `_cfr`: action `a` is visited with the
   * bets after `a` and the actor's reach scaled by the current strategy for `a`.
   */
  ghost function CfrChildren(net: ValueNet, m: map<NodeKey, Node>, key: NodeKey, n: Node, bets: Chips,
                             r0: seq<real>, r1: seq<real>, j: nat): (c: Children)
    requires IsHandVector(r0) && IsHandVector(r1)
    requires ConsistentNode(key, n) && !n.isTerminal && !n.isLeaf && j <= |n.validActions|
    ensures |c.evActions| == j && AllWellSized(c.evActions)
    decreases Potential(key.history), 0, j
  {
    if j == 0 then Children([], m)
    else
      var prev := CfrChildren(net, m, key, n, bets, r0, r1, j - 1);
      var a := n.validActions[j - 1];
      var actor := n.playerToAct;
      PotentialDecreases(key.history, a);
      var child := CfrVisit(net, prev.nodes, Child(key, a), ApplyBet(bets, actor, a, key.boardRank),
                            ChildReach(r0, actor == 0, n.strategy[j - 1]),
                            ChildReach(r1, actor == 1, n.strategy[j - 1]));
      Children(prev.evActions + [child.ev], child.nodes)
  }

  lemma CfrChildrenAppend(net: ValueNet, m: map<NodeKey, Node>, key: NodeKey, n: Node, bets: Chips,
                          r0: seq<real>, r1: seq<real>, k: nat)
    requires IsHandVector(r0) && IsHandVector(r1)
    requires ConsistentNode(key, n) && !n.isTerminal && !n.isLeaf && k < |n.validActions|
    ensures var prev := CfrChildren(net, m, key, n, bets, r0, r1, k);
            var a := n.validActions[k];
            var actor := n.playerToAct;
            var child := CfrVisit(net, prev.nodes, Child(key, a), ApplyBet(bets, actor, a, key.boardRank),
                                  ChildReach(r0, actor == 0, n.strategy[k]), ChildReach(r1, actor == 1, n.strategy[k]));
            CfrChildren(net, m, key, n, bets, r0, r1, k + 1) == Children(prev.evActions + [child.ev], child.nodes)
  {
  }

  /**
   * The value of the subtree at `key` when every node plays its average strategy, as
   * `_compute_ev` computes it; a node missing from `m` counts as new, and a node that does
   * not fit its key (never present in a cache the solver keeps) counts as zero values.
   */
  ghost function AvgPlayValue(net: ValueNet, m: map<NodeKey, Node>, key: NodeKey, bets: Chips,
                              r0: seq<real>, r1: seq<real>): (v: Values)
    requires IsHandVector(r0) && IsHandVector(r1)
    ensures v.WellSized()
    decreases Potential(key.history), 1, 0
  {
    var n := CachedOrNew(m, key);
    if !ConsistentNode(key, n) then Values(Zeros(NUM_CARDS), Zeros(NUM_CARDS))
    else if n.isTerminal then TerminalValues(key.history, key.boardRank, bets, r0, r1)
    else if n.isLeaf then LeafValues(net, bets, r0, r1)
    else
      var avg := AverageStrategy(n.strategySum);
      NodeEv(avg, AvgChildren(net, m, key, n, avg, bets, r0, r1, |n.validActions|))
  }

  /** The values of the first `j` children under average play, with average-scaled reaches. */
  ghost function AvgChildren(net: ValueNet, m: map<NodeKey, Node>, key: NodeKey, n: Node, avg: seq<seq<real>>,
                             bets: Chips, r0: seq<real>, r1: seq<real>, j: nat): (evs: seq<Values>)
    requires IsHandVector(r0) && IsHandVector(r1)
    requires ConsistentNode(key, n) && !n.isTerminal && !n.isLeaf && j <= |n.validActions|
    requires Shaped(avg, |n.validActions|)
    ensures |evs| == j && AllWellSized(evs)
    decreases Potential(key.history), 0, j
  {
    if j == 0 then []
    else
      var a := n.validActions[j - 1];
      var actor := n.playerToAct;
      PotentialDecreases(key.history, a);
      AvgChildren(net, m, key, n, avg, bets, r0, r1, j - 1) +
      [AvgPlayValue(net, m, Child(key, a), ApplyBet(bets, actor, a, key.boardRank),
                    ChildReach(r0, actor == 0, avg[j - 1]), ChildReach(r1, actor == 1, avg[j - 1]))]
  }

  lemma AvgChildrenAppend(net: ValueNet, m: map<NodeKey, Node>, key: NodeKey, n: Node, avg: seq<seq<real>>,
                          bets: Chips, r0: seq<real>, r1: seq<real>, k: nat)
    requires IsHandVector(r0) && IsHandVector(r1)
    requires ConsistentNode(key, n) && !n.isTerminal && !n.isLeaf && k < |n.validActions|
    requires Shaped(avg, |n.validActions|)
    ensures var a := n.validActions[k];
            var actor := n.playerToAct;
            AvgChildren(net, m, key, n, avg, bets, r0, r1, k + 1) ==
            AvgChildren(net, m, key, n, avg, bets, r0, r1, k) +
            [AvgPlayValue(net, m, Child(key, a), ApplyBet(bets, actor, a, key.boardRank),
                          ChildReach(r0, actor == 0, avg[k]), ChildReach(r1, actor == 1, avg[k]))]
  {
  }

  /** The cache after `count` CFR sweeps from the root `key`, starting empty, as `solve` runs them. */
  ghost function CfrSweeps(net: ValueNet, key: NodeKey, bets: Chips, r0: seq<real>, r1: seq<real>,
                           count: nat): (m: map<NodeKey, Node>)
    requires IsHandVector(r0) && IsHandVector(r1)
  {
    if count == 0 then map[] else CfrVisit(net, CfrSweeps(net, key, bets, r0, r1, count - 1), key, bets, r0, r1).nodes
  }

  lemma CfrSweepsStep(net: ValueNet, key: NodeKey, bets: Chips, r0: seq<real>, r1: seq<real>, count: nat)
    requires IsHandVector(r0) && IsHandVector(r1)
    ensures CfrSweeps(net, key, bets, r0, r1, count + 1) ==
            CfrVisit(net, CfrSweeps(net, key, bets, r0, r1, count), key, bets, r0, r1).nodes
  {
  }

  /** The number of sweeps `for _ in range(iterations)` runs. */
  function SweepCount(iterations: int): (n: nat)
    ensures iterations > 0 ==> n == iterations
    ensures iterations <= 0 ==> n == 0
  {
    if iterations > 0 then iterations else 0
  }

  lemma GrowthIsTransitive(m0: map<NodeKey, Node>, m1: map<NodeKey, Node>, m2: map<NodeKey, Node>)
    requires CacheOnlyGrows(m0, m1) && CacheOnlyGrows(m1, m2)
    ensures CacheOnlyGrows(m0, m2)
  {
  }

  /** Two caches that show every key the same node, counting a missing one as new. */
  ghost predicate SameLookups(m1: map<NodeKey, Node>, m2: map<NodeKey, Node>)
  {
    forall k :: CachedOrNew(m1, k) == CachedOrNew(m2, k)
  }

  lemma GrowthKeepsLookups(m1: map<NodeKey, Node>, m2: map<NodeKey, Node>)
    requires CacheOnlyGrows(m1, m2)
    ensures SameLookups(m1, m2)
  {
    forall k
      ensures CachedOrNew(m1, k) == CachedOrNew(m2, k)
    {
    }
  }

  /**
   * Values under average play depend only on what each key looks up to: creating a
   * missing node before `_compute_ev` reaches it changes nothing.
   */
  lemma {:induction false} AvgPlayValueStable(net: ValueNet, m1: map<NodeKey, Node>, m2: map<NodeKey, Node>,
                                              key: NodeKey, bets: Chips, r0: seq<real>, r1: seq<real>)
    requires SameLookups(m1, m2) && IsHandVector(r0) && IsHandVector(r1)
    ensures AvgPlayValue(net, m1, key, bets, r0, r1) == AvgPlayValue(net, m2, key, bets, r0, r1)
    decreases Potential(key.history), 1, 0
  {
    var n := CachedOrNew(m1, key);
    assert n == CachedOrNew(m2, key);
    if ConsistentNode(key, n) && !n.isTerminal && !n.isLeaf {
      AvgChildrenStable(net, m1, m2, key, n, AverageStrategy(n.strategySum), bets, r0, r1, |n.validActions|);
    }
  }

  lemma {:induction false} AvgChildrenStable(net: ValueNet, m1: map<NodeKey, Node>, m2: map<NodeKey, Node>,
                                             key: NodeKey, n: Node, avg: seq<seq<real>>, bets: Chips,
                                             r0: seq<real>, r1: seq<real>, j: nat)
    requires SameLookups(m1, m2) && IsHandVector(r0) && IsHandVector(r1)
    requires ConsistentNode(key, n) && !n.isTerminal && !n.isLeaf && j <= |n.validActions|
    requires Shaped(avg, |n.validActions|)
    ensures AvgChildren(net, m1, key, n, avg, bets, r0, r1, j) == AvgChildren(net, m2, key, n, avg, bets, r0, r1, j)
    decreases Potential(key.history), 0, j
  {
    if j > 0 {
      AvgChildrenStable(net, m1, m2, key, n, avg, bets, r0, r1, j - 1);
      var a := n.validActions[j - 1];
      var actor := n.playerToAct;
      PotentialDecreases(key.history, a);
      AvgPlayValueStable(net, m1, m2, Child(key, a), ApplyBet(bets, actor, a, key.boardRank),
                         ChildReach(r0, actor == 0, avg[j - 1]), ChildReach(r1, actor == 1, avg[j - 1]));
    }
  }

  class CFRSolver {
    const valueNet: ValueNet
    const iterations: int
    /** The node cache, keyed by history and board. */
    var nodes: map<NodeKey, Node>

    ghost predicate Valid()
      reads this
    {
      AllConsistent(nodes)
    }

    constructor(valueNet: ValueNet, iterations: int)
      ensures this.valueNet == valueNet && this.iterations == iterations
      ensures nodes == map[] && Valid()
    {
      this.valueNet := valueNet;
      this.iterations := iterations;
      nodes := map[];
    }

    /** `_get_node`: the cached node for the key, created on first use. */
    method GetNode(history: seq<int>, boardRank: Option<int>) returns (node: Node)
      requires Valid()
      modifies this
      ensures Valid()
      ensures var key := NodeKey(history, boardRank);
              nodes == old(nodes)[key := CachedOrNew(old(nodes), key)] && node == nodes[key]
    {
      var key := NodeKey(history, boardRank);
      if key !in nodes {
        NewNodeConsistent(key);
        nodes := nodes[key := NewNode(key)];
      }
      node := nodes[key];
    }

    /**
     * `_cfr`: one CFR visit of the subtree at `history`. A terminal node returns its
     * payoffs and a leaf the network's values; an internal node recurses into each
     * action with the actor's reach scaled by the current strategy, then records the
     * strategy, the regret increments and the reach-weighted strategy in its node.
     */
    method Cfr(history: seq<int>, boardRank: Option<int>, bets: Chips, r0: seq<real>, r1: seq<real>)
      returns (ev: Values, ghost evActions: seq<Values>)
      requires Valid() && IsHandVector(r0) && IsHandVector(r1)
      modifies this
      decreases Potential(history), 3
      ensures Valid()
      ensures OnlySubtreeChanged(old(nodes), nodes, NodeKey(history, boardRank))
      ensures NodeKey(history, boardRank) in nodes
      ensures ev.WellSized()
      ensures var key := NodeKey(history, boardRank);
              var n0 := CachedOrNew(old(nodes), key);
              (n0.isTerminal ==> ev == TerminalValues(history, boardRank, bets, r0, r1) && nodes[key] == n0) &&
              (n0.isLeaf ==> ev == LeafValues(valueNet, bets, r0, r1) && nodes[key] == n0) &&
              (!n0.isTerminal && !n0.isLeaf ==>
                 |evActions| == |n0.validActions| && AllWellSized(evActions) &&
                 ev == NodeEv(MatchRegretsPerHand(n0.regretSum), evActions) &&
                 nodes[key] == CfrUpdate(n0, evActions, r0, r1))
      ensures Visit(ev, evActions, nodes) == CfrVisit(valueNet, old(nodes), NodeKey(history, boardRank), bets, r0, r1)
    {
      var key := NodeKey(history, boardRank);
      ghost var cache0 := nodes;
      CachedConsistent(cache0, key);
      var node := GetNode(history, boardRank);
      evActions := [];
      if node.isTerminal {
        ev := TerminalValues(history, boardRank, bets, r0, r1);
        return;
      }
      if node.isLeaf {
        ev := LeafValues(valueNet, bets, r0, r1);
        return;
      }
      ev, evActions := VisitDecision(key, node, bets, r0, r1, cache0);
      MatchedNodeConsistent(key, node);
      CfrVisitAtDecision(valueNet, cache0, key, bets, r0, r1, node, node.(strategy := MatchRegretsPerHand(node.regretSum)));
    }

    /**
     * The decision-node part of `_cfr`: regret matching gives the current strategy, the
     * children are visited, and the node stores the strategy and its updated sums.
     */
    method VisitDecision(key: NodeKey, n0: Node, bets: Chips, r0: seq<real>, r1: seq<real>,
                         ghost cache0: map<NodeKey, Node>)
      returns (ev: Values, ghost evActions: seq<Values>)
      requires Valid() && IsHandVector(r0) && IsHandVector(r1)
      requires n0 == CachedOrNew(cache0, key) && nodes == cache0[key := n0]
      requires ConsistentNode(key, n0) && !n0.isTerminal && !n0.isLeaf
      modifies this
      decreases Potential(key.history), 2
      ensures Valid()
      ensures OnlySubtreeChanged(old(nodes), nodes, key)
      ensures Visit(ev, evActions, nodes) == CfrVisit(valueNet, cache0, key, bets, r0, r1)
    {
      var node := StoreMatchedStrategy(key, n0, cache0);
      ghost var matched := node;

      var evs := VisitChildren(key, node, bets, r0, r1);

      var nodeEv;
      nodeEv, node := UpdateNode(n0, node.strategy, evs, r0, r1);
      UpdatedNodeConsistent(key, n0, evs, r0, r1);
      CfrVisitAtDecision(valueNet, cache0, key, bets, r0, r1, n0, matched);
      RootRewriteStaysInSubtree(cache0, nodes, key, matched, n0, node);
      InsertConsistent(nodes, key, node);
      nodes := nodes[key := node];
      ev := nodeEv;
      evActions := evs;
    }

    /** The start of `_cfr` at a decision node: regret matching, stored as the node's strategy. */
    method StoreMatchedStrategy(key: NodeKey, n0: Node, ghost cache0: map<NodeKey, Node>) returns (node: Node)
      requires Valid() && nodes == cache0[key := n0]
      requires ConsistentNode(key, n0) && !n0.isTerminal && !n0.isLeaf
      modifies this
      ensures Valid() && ConsistentNode(key, node)
      ensures node == n0.(strategy := MatchRegretsPerHand(n0.regretSum))
      ensures nodes == cache0[key := node]
    {
      var strategy := RegretMatch(n0.regretSum);
      node := n0.(strategy := strategy);
      MatchedNodeConsistent(key, n0);
      InsertConsistent(nodes, key, node);
      nodes := nodes[key := node];
    }

    /**
     * The action loop of `_cfr`: each child is visited with the bets after the action
     * and the actor's reach multiplied by the node's current strategy for it.
     */
    method VisitChildren(key: NodeKey, node: Node, bets: Chips, r0: seq<real>, r1: seq<real>)
      returns (evs: seq<Values>)
      requires Valid() && IsHandVector(r0) && IsHandVector(r1)
      requires key in nodes && nodes[key] == node && ConsistentNode(key, node)
      requires !node.isTerminal && !node.isLeaf
      modifies this
      decreases Potential(key.history), 1
      ensures Valid()
      ensures key in nodes && nodes[key] == node
      ensures OnlySubtreeChanged(old(nodes), nodes, key)
      ensures |evs| == |node.validActions| && AllWellSized(evs)
      ensures Children(evs, nodes) == CfrChildren(valueNet, old(nodes), key, node, bets, r0, r1, |node.validActions|)
    {
      evs := [];
      for k := 0 to |node.validActions|
        invariant Valid()
        invariant key in nodes && nodes[key] == node
        invariant OnlySubtreeChanged(old(nodes), nodes, key)
        invariant |evs| == k && AllWellSized(evs)
        invariant Children(evs, nodes) == CfrChildren(valueNet, old(nodes), key, node, bets, r0, r1, k)
      {
        ghost var before := nodes;
        CfrChildrenAppend(valueNet, old(nodes), key, node, bets, r0, r1, k);
        var childEv := VisitChild(key, node, k, bets, r0, r1);
        ChildChangesStayInSubtree(old(nodes), before, nodes, key, node.validActions[k]);
        evs := evs + [childEv];
      }
    }

    /**
     * One pass of the action loop of `_cfr`: the bets after action `k`, the acting
     * player's reach scaled by its strategy for that action, and the recursive visit.
     */
    method VisitChild(key: NodeKey, node: Node, k: nat, bets: Chips, r0: seq<real>, r1: seq<real>)
      returns (childEv: Values)
      requires Valid() && IsHandVector(r0) && IsHandVector(r1)
      requires key in nodes && nodes[key] == node && ConsistentNode(key, node)
      requires !node.isTerminal && !node.isLeaf && k < |node.validActions|
      modifies this
      decreases Potential(key.history), 0
      ensures Valid()
      ensures key in nodes && nodes[key] == node
      ensures OnlySubtreeChanged(old(nodes), nodes, Child(key, node.validActions[k]))
      ensures childEv.WellSized()
      ensures var a := node.validActions[k];
              var actor := node.playerToAct;
              var v := CfrVisit(valueNet, old(nodes), Child(key, a), ApplyBet(bets, actor, a, key.boardRank),
                                ChildReach(r0, actor == 0, node.strategy[k]), ChildReach(r1, actor == 1, node.strategy[k]));
              childEv == v.ev && nodes == v.nodes
    {
      var a := node.validActions[k];
      var actor := node.playerToAct;
      var newBets := ApplyBet(bets, actor, a, key.boardRank);
      PotentialDecreases(key.history, a);
      var childR0 := ChildReach(r0, actor == 0, node.strategy[k]);
      var childR1 := ChildReach(r1, actor == 1, node.strategy[k]);
      ghost var childActions;
      childEv, childActions := Cfr(key.history + [a], key.boardRank, newBets, childR0, childR1);
      ChildChangesStayInSubtree(old(nodes), old(nodes), nodes, key, a);
    }

    /**
     * `_compute_ev`: the values of the subtree at `history` when every node plays its
     * average strategy. Nodes missing from the cache are created, nothing else changes.
     * `strategyMap` is passed down unused, as in the source.
     */
    method ComputeEv(history: seq<int>, boardRank: Option<int>, bets: Chips, r0: seq<real>, r1: seq<real>,
                     strategyMap: seq<seq<real>>)
      returns (ev: Values, ghost evActions: seq<Values>)
      requires Valid() && IsHandVector(r0) && IsHandVector(r1)
      modifies this
      decreases Potential(history), 2
      ensures Valid()
      ensures CacheOnlyGrows(old(nodes), nodes)
      ensures OnlySubtreeChanged(old(nodes), nodes, NodeKey(history, boardRank))
      ensures NodeKey(history, boardRank) in nodes
      ensures ev.WellSized()
      ensures var n := nodes[NodeKey(history, boardRank)];
              (n.isTerminal ==> ev == TerminalValues(history, boardRank, bets, r0, r1)) &&
              (n.isLeaf ==> ev == LeafValues(valueNet, bets, r0, r1)) &&
              (!n.isTerminal && !n.isLeaf ==>
                 |evActions| == |n.validActions| && AllWellSized(evActions) &&
                 ev == NodeEv(AverageStrategy(n.strategySum), evActions))
      ensures ev == AvgPlayValue(valueNet, old(nodes), NodeKey(history, boardRank), bets, r0, r1)
      ensures var key := NodeKey(history, boardRank);
              var n := CachedOrNew(old(nodes), key);
              !n.isTerminal && !n.isLeaf ==>
                evActions == AvgChildren(valueNet, old(nodes), key, n, AverageStrategy(n.strategySum), bets, r0, r1,
                                         |n.validActions|)
    {
      var key := NodeKey(history, boardRank);
      ghost var cache0 := nodes;
      CachedConsistent(cache0, key);
      var node := GetNode(history, boardRank);
      GrowthKeepsLookups(cache0, nodes);
      evActions := [];
      if node.isTerminal {
        ev := TerminalValues(history, boardRank, bets, r0, r1);
        return;
      }
      if node.isLeaf {
        ev := LeafValues(valueNet, bets, r0, r1);
        return;
      }
      var avgStrategy := AverageStrategy(node.strategySum);
      ghost var cache1 := nodes;
      var evs := EvaluateChildren(key, node, avgStrategy, bets, r0, r1, strategyMap);
      AvgChildrenStable(valueNet, cache0, cache1, key, node, avgStrategy, bets, r0, r1, |node.validActions|);
      ev := AccumulateNodeEv(avgStrategy, evs);
      evActions := evs;
    }

    /** The action loop of `_compute_ev`, with the reach scaled by the average strategy. */
    method EvaluateChildren(key: NodeKey, node: Node, avgStrategy: seq<seq<real>>, bets: Chips,
                            r0: seq<real>, r1: seq<real>, strategyMap: seq<seq<real>>)
      returns (evs: seq<Values>)
      requires Valid() && IsHandVector(r0) && IsHandVector(r1)
      requires key in nodes && nodes[key] == node && ConsistentNode(key, node)
      requires !node.isTerminal && !node.isLeaf
      requires Shaped(avgStrategy, |node.validActions|)
      modifies this
      decreases Potential(key.history), 1
      ensures Valid()
      ensures CacheOnlyGrows(old(nodes), nodes)
      ensures OnlySubtreeChanged(old(nodes), nodes, key)
      ensures |evs| == |node.validActions| && AllWellSized(evs)
      ensures evs == AvgChildren(valueNet, old(nodes), key, node, avgStrategy, bets, r0, r1, |node.validActions|)
    {
      evs := [];
      for k := 0 to |node.validActions|
        invariant Valid()
        invariant CacheOnlyGrows(old(nodes), nodes)
        invariant OnlySubtreeChanged(old(nodes), nodes, key)
        invariant |evs| == k && AllWellSized(evs)
        invariant evs == AvgChildren(valueNet, old(nodes), key, node, avgStrategy, bets, r0, r1, k)
      {
        ghost var before := nodes;
        var childEv := EvaluateChild(key, node, avgStrategy, k, bets, r0, r1, strategyMap, old(nodes));
        ChildChangesStayInSubtree(old(nodes), before, nodes, key, node.validActions[k]);
        AvgChildrenAppend(valueNet, old(nodes), key, node, avgStrategy, bets, r0, r1, k);
        evs := evs + [childEv];
      }
    }

    /** A child evaluated after its earlier siblings has the value it has from the loop's starting cache. */
    lemma EvaluatedChildStable(m1: map<NodeKey, Node>, m2: map<NodeKey, Node>, key: NodeKey, node: Node,
                               avgStrategy: seq<seq<real>>, k: nat, bets: Chips, r0: seq<real>, r1: seq<real>)
      requires CacheOnlyGrows(m1, m2)
      requires IsHandVector(r0) && IsHandVector(r1)
      requires ConsistentNode(key, node) && !node.isTerminal && !node.isLeaf && k < |node.validActions|
      requires Shaped(avgStrategy, |node.validActions|)
      ensures var a := node.validActions[k];
              var actor := node.playerToAct;
              var bets' := ApplyBet(bets, actor, a, key.boardRank);
              var c0 := ChildReach(r0, actor == 0, avgStrategy[k]);
              var c1 := ChildReach(r1, actor == 1, avgStrategy[k]);
              AvgPlayValue(valueNet, m2, Child(key, a), bets', c0, c1) ==
              AvgPlayValue(valueNet, m1, Child(key, a), bets', c0, c1)
    {
      var a := node.validActions[k];
      var actor := node.playerToAct;
      GrowthKeepsLookups(m1, m2);
      AvgPlayValueStable(valueNet, m2, m1, Child(key, a), ApplyBet(bets, actor, a, key.boardRank),
                         ChildReach(r0, actor == 0, avgStrategy[k]), ChildReach(r1, actor == 1, avgStrategy[k]));
    }

    /** One pass of the action loop of `_compute_ev`: the child's value under average play. */
    method EvaluateChild(key: NodeKey, node: Node, avgStrategy: seq<seq<real>>, k: nat, bets: Chips,
                         r0: seq<real>, r1: seq<real>, strategyMap: seq<seq<real>>, ghost start: map<NodeKey, Node>)
      returns (childEv: Values)
      requires Valid() && IsHandVector(r0) && IsHandVector(r1)
      requires CacheOnlyGrows(start, nodes)
      requires key in nodes && nodes[key] == node && ConsistentNode(key, node)
      requires !node.isTerminal && !node.isLeaf && k < |node.validActions|
      requires Shaped(avgStrategy, |node.validActions|)
      modifies this
      decreases Potential(key.history), 0
      ensures Valid()
      ensures CacheOnlyGrows(old(nodes), nodes)
      ensures OnlySubtreeChanged(old(nodes), nodes, Child(key, node.validActions[k]))
      ensures childEv.WellSized()
      ensures var a := node.validActions[k];
              var actor := node.playerToAct;
              var v := AvgPlayValue(valueNet, old(nodes), Child(key, a), ApplyBet(bets, actor, a, key.boardRank),
                                    ChildReach(r0, actor == 0, avgStrategy[k]), ChildReach(r1, actor == 1, avgStrategy[k]));
              childEv == v &&
              childEv == AvgPlayValue(valueNet, start, Child(key, a), ApplyBet(bets, actor, a, key.boardRank),
                                      ChildReach(r0, actor == 0, avgStrategy[k]), ChildReach(r1, actor == 1, avgStrategy[k]))
    {
      EvaluatedChildStable(start, nodes, key, node, avgStrategy, k, bets, r0, r1);
      var a := node.validActions[k];
      var actor := node.playerToAct;
      var newBets := ApplyBet(bets, actor, a, key.boardRank);
      PotentialDecreases(key.history, a);
      var childR0 := ChildReach(r0, actor == 0, avgStrategy[k]);
      var childR1 := ChildReach(r1, actor == 1, avgStrategy[k]);
      ghost var childActions;
      childEv, childActions := ComputeEv(key.history + [a], key.boardRank, newBets, childR0, childR1, strategyMap);
    }

    /** The loop of `solve`: the cache is emptied and the root visited `iterations` times. */
    method RunSweeps(key: NodeKey, bets: Chips, r0: seq<real>, r1: seq<real>)
      requires IsHandVector(r0) && IsHandVector(r1)
      modifies this
      ensures Valid()
      ensures WithinSubtree(nodes, key)
      ensures nodes == CfrSweeps(valueNet, key, bets, r0, r1, SweepCount(iterations))
    {
      ClearCache(key, bets, r0, r1);
      for i := 0 to SweepCount(iterations)
        invariant nodes == CfrSweeps(valueNet, key, bets, r0, r1, i)
        invariant Valid() && WithinSubtree(nodes, key)
      {
        Sweep(key, bets, r0, r1, i);
      }
    }

    /** `self.nodes = {}`: the cache before the first sweep. */
    method ClearCache(key: NodeKey, bets: Chips, r0: seq<real>, r1: seq<real>)
      requires IsHandVector(r0) && IsHandVector(r1)
      modifies this
      ensures Valid() && WithinSubtree(nodes, key)
      ensures nodes == CfrSweeps(valueNet, key, bets, r0, r1, 0)
    {
      nodes := map[];
    }

    /** Iteration `i` of the loop of `solve`: a CFR visit of the root, its value discarded. */
    method Sweep(key: NodeKey, bets: Chips, r0: seq<real>, r1: seq<real>, ghost i: nat)
      requires Valid() && IsHandVector(r0) && IsHandVector(r1)
      requires WithinSubtree(nodes, key) && nodes == CfrSweeps(valueNet, key, bets, r0, r1, i)
      modifies this
      ensures Valid()
      ensures WithinSubtree(nodes, key) && nodes == CfrSweeps(valueNet, key, bets, r0, r1, i + 1)
    {
      var ev;
      ghost var evActions;
      ev, evActions := Cfr(key.history, key.boardRank, bets, r0, r1);
      SubtreeChangeStaysWithin(old(nodes), nodes, key);
      CfrSweepsStep(valueNet, key, bets, r0, r1, i);
    }

    /**
     * `solve`: empty the cache, run the CFR visit `iterations` times from the root,
     * and return the root's average strategy with its value under average play.
     */
    method Solve(history: seq<int>, boardRank: Option<int>, bets: Chips, r0: seq<real>, r1: seq<real>)
      returns (avgStrategy: seq<seq<real>>, value: Values, ghost rootEvActions: seq<Values>)
      requires IsHandVector(r0) && IsHandVector(r1)
      modifies this
      ensures Valid()
      ensures var key := NodeKey(history, boardRank);
              key in nodes && forall k :: k in nodes ==> k == key || Deeper(k, key)
      ensures var n := nodes[NodeKey(history, boardRank)];
              avgStrategy == AverageStrategy(n.strategySum) &&
              (n.isTerminal ==> value == TerminalValues(history, boardRank, bets, r0, r1)) &&
              (n.isLeaf ==> value == LeafValues(valueNet, bets, r0, r1)) &&
              (!n.isTerminal && !n.isLeaf ==>
                 |rootEvActions| == |n.validActions| && AllWellSized(rootEvActions) &&
                 value == NodeEv(avgStrategy, rootEvActions))
      ensures var key := NodeKey(history, boardRank);
              var swept := CfrSweeps(valueNet, key, bets, r0, r1, SweepCount(iterations));
              CacheOnlyGrows(swept, nodes) &&
              avgStrategy == AverageStrategy(CachedOrNew(swept, key).strategySum) &&
              value == AvgPlayValue(valueNet, swept, key, bets, r0, r1)
    {
      var key := NodeKey(history, boardRank);
      RunSweeps(key, bets, r0, r1);
      ghost var swept := nodes;
      CachedConsistent(swept, key);
      var root := GetNode(history, boardRank);
      assert root == CachedOrNew(swept, key);
      assert CacheOnlyGrows(swept, nodes);
      GrowthKeepsLookups(swept, nodes);
      AvgPlayValueStable(valueNet, swept, nodes, key, bets, r0, r1);
      ghost var fetched := nodes;
      avgStrategy := AverageStrategy(root.strategySum);
      value, rootEvActions := ComputeEv(history, boardRank, bets, r0, r1, avgStrategy);
      assert value == AvgPlayValue(valueNet, swept, key, bets, r0, r1);
      GrowthIsTransitive(swept, fetched, nodes);
    }
  }
}
