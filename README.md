# Poker bots: game rules, solvers, environments and Slumbot string handling in Dafny

This project models the discrete core of the Algorithmic-Game-Theory poker bots in
Dafny and proves properties of that model. It covers three games.

- **Kuhn poker.** The environment is a state machine with a terminal-history table and
  payoffs. There is also the CFR information-set node and two scripted agents.
- **Leduc hold'em.** Modelled here:
  - the rules the solver uses (legal actions with a raise cap, round end, showdown,
    zero-sum payoffs);
  - the two-round environment;
  - the tabular CFR node and its information-set key;
  - the depth-limited ReBeL subgame solver, with per-hand regret matching, closed-form
    fold and showdown values, network leaves and the average-strategy EV pass;
  - the value network's feature vector;
  - the self-play driver's state changes and replay buffer;
  - two scripted agents.
- **Heads-up no-limit hold'em against Slumbot.** Modelled here:
  - the character-level parser of Slumbot's action strings;
  - the random agent's letters and bet sizes;
  - the ReBeL agent's history reading, belief shift and index-to-command mapping;
  - the abstract legal actions;
  - the 1326 two-card hands;
  - the feature vector;
  - the trainer's replay buffer.

Numbers follow the source's types:
- Leduc chips and beliefs are `real`, and numpy vectors are `seq<real>`.
- Kuhn and Slumbot chip counts are `int`.

Code that updates state step by step is modelled imperatively:
- the environments, the CFR nodes and the solver are classes whose methods are proved
  against specification functions;
- the parser and the feature builders are methods with loops.

Rules and formulas are functions with lemmas. Randomness (shuffles, `random.choice`,
`random.randint`) becomes parameters: a shuffled deck, or a natural number `choice`
whose value modulo the list length picks the element.

Modules, one per source file, plus shared helpers:
- `Options` and `Vectors` (`vectors.dfy`): option type, sums and pointwise vector operations.
- `Decimal`: `str`/`int` on non-negative integers, with the round trip.
- `RegretMatching`: scalar regret matching and strategy averaging, shared by both CFR
  nodes and the solver.
- `Fifo`: the newest `n` items of a stream, shared by both replay buffers.

## Model

| member | source | states |
|---|---|---|
| LeducRules.GetLegalActions | poker_bots/leduc_poker/rebel/game.py:19-43 | empty history gives [1, 2]; after a raise [0, 1, 2] below two raises, else [0, 1]; after a check [1, 2]; after a fold []; always ascending within 0..2 |
| LeducRules.TerminalRoundCases | poker_bots/leduc_poker/rebel/game.py:45-63 | the round is over exactly on a fold, on check-check, or on a bet/raise followed by a call; never on the empty history |
| LeducRules.OpenStep | poker_bots/leduc_poker/rebel/game.py:26-63 | a legal action from an open history that does not end the round leads to another open history |
| LeducRules.TwoRaisesEnd | poker_bots/leduc_poker/rebel/game.py:26-63 | after two raises every legal action ends the round |
| LeducRules.OpenRounds | poker_bots/leduc_poker/rebel/game.py:26-63 | a round still open after legal play is one of six histories |
| LeducRules.RoundLength | poker_bots/leduc_poker/rebel/game.py:26-63 | with the two-raise cap every legally played round has at most four actions |
| LeducRules.PotentialDecreases | poker_bots/leduc_poker/rebel/game.py:26-63 | every legal action from an open history strictly decreases a natural-number measure, so the game tree is finite |
| LeducRules.GetPayoffsFromBets | poker_bots/leduc_poker/rebel/game.py:65-83 | a tie pays 0 to both; otherwise the winner nets the loser's bet and the loser loses its bet; always zero-sum |
| LeducRules.GetWinnerRanksHands | poker_bots/leduc_poker/rebel/game.py:85-106 | the winner is the stronger hand, comparing "pairs the board" first and rank `card // 2` second; equal strength ties |
| LeducRules.GetWinnerAntisymmetric | poker_bots/leduc_poker/rebel/game.py:85-106 | swapping the hands swaps winners 0 and 1 and keeps a tie |
| LeducSearch.NewNode | poker_bots/leduc_poker/rebel/search.py:28-58 | a fold is terminal; a finished round is a showdown with a board and a leaf without one; otherwise player `len % 2` acts over the rules' legal actions with the raise count; tables start at zero |
| LeducSearch.CFRSolver.GetNode | poker_bots/leduc_poker/rebel/search.py:28-61 | the cache gains the key's node only if absent, and returns the cached node |
| LeducSearch.NewNodeConsistent | poker_bots/leduc_poker/rebel/search.py:28-58 | a freshly built node satisfies the invariant that its action list, player and tables fit its key |
| LeducSearch.MatchRegretsPerHand | poker_bots/leduc_poker/rebel/search.py:87-97 | per hand, the action column is regret matching with threshold 1e-9 |
| LeducSearch.MatchedStrategyIsDistribution | poker_bots/leduc_poker/rebel/search.py:87-97 | for every hand the strategy is non-negative and sums to 1, uniform 1/|A| where the positive-regret total is at most 1e-9 |
| LeducSearch.MatchedEntry | poker_bots/leduc_poker/rebel/search.py:94-97 | each entry is the positive regret over the hand's total, or 1/|A| |
| LeducSearch.PositiveTotalsStep | poker_bots/leduc_poker/rebel/search.py:88-92 | one more action adds its positive regrets to every hand's running total |
| LeducSearch.PositiveRegrets | poker_bots/leduc_poker/rebel/search.py:88-92 | the first loop yields each action's positive parts and, per hand, their total |
| LeducSearch.RegretMatch | poker_bots/leduc_poker/rebel/search.py:88-97 | the two loops compute exactly the per-hand regret matching |
| LeducSearch.ApplyBet | poker_bots/leduc_poker/rebel/search.py:107-119 | a call raises the actor's bet to the opponent's when lower; a raise puts the actor 2 (no board) or 4 (board) above the opponent; other actions leave bets; the opponent's bet never changes |
| LeducSearch.FoldValues | poker_bots/leduc_poker/rebel/search.py:194-198 | the last actor `(len - 1) % 2` loses its bet for every hand and the other wins it; the vectors sum to zero |
| LeducSearch.TerminalValues | poker_bots/leduc_poker/rebel/search.py:193-225 | a fold gives the fold values, anything else the showdown values |
| LeducSearch.ShowdownIgnoresSameCard | poker_bots/leduc_poker/rebel/search.py:205-214 | a hand's showdown value does not depend on the opponent's reach of that same card |
| LeducSearch.ShowdownZeroSum | poker_bots/leduc_poker/rebel/search.py:201-225 | the reach-weighted showdown totals of the two players cancel |
| LeducSearch.NormalizeRange | poker_bots/leduc_poker/rebel/search.py:235-238 | the range is divided by its sum when above 1e-9 (then sums to 1), else returned unchanged |
| LeducSearch.BoardWeightsSumToOne | poker_bots/leduc_poker/rebel/search.py:263-273 | the board weights 1/5 (pairing) and 2/5 (not) sum to 1 over the three ranks for every card |
| LeducSearch.LeafAggregateBetween | poker_bots/leduc_poker/rebel/search.py:256-278 | a leaf value lies between the smallest and largest network prediction over the boards |
| LeducSearch.LeafValues | poker_bots/leduc_poker/rebel/search.py:227-278 | the leaf values are the board-weighted aggregates of the network's output |
| LeducSearch.AverageStrategy | poker_bots/leduc_poker/rebel/search.py:280-293 | per hand, the strategy sums normalized when their total exceeds 1e-9, else uniform |
| LeducSearch.AverageStrategyIsDistribution | poker_bots/leduc_poker/rebel/search.py:280-293 | with non-negative sums the average strategy is a distribution for every hand |
| LeducSearch.AccumulateNodeEv | poker_bots/leduc_poker/rebel/search.py:129-133 | the accumulation loop yields the strategy-weighted sum of the action values for both players |
| LeducSearch.RegretIncrementsBalance | poker_bots/leduc_poker/rebel/search.py:129-139 | for every hand the strategy-weighted regret increments sum to zero |
| LeducSearch.AccumulateRegrets | poker_bots/leduc_poker/rebel/search.py:135-139 | regret sums grow by `ev_a - node_ev` (unweighted); strategy sums grow by strategy times own reach |
| LeducSearch.UpdatedNodeConsistent | poker_bots/leduc_poker/rebel/search.py:129-139 | storing the CFR update keeps a node fitting its key, so the cache invariant survives a visit |
| LeducSearch.UpdateNode | poker_bots/leduc_poker/rebel/search.py:129-139 | the tail of `_cfr` returns the node value under the matched strategy and the node with that strategy, its regrets grown by `ev_a - node_ev` and its strategy sums by strategy times own reach |
| LeducSearch.ChildReach | poker_bots/leduc_poker/rebel/search.py:121-126 | the actor's reach is scaled hand by hand by the action's probability; the opponent's reach is passed on unchanged |
| LeducSearch.CfrVisit | poker_bots/leduc_poker/rebel/search.py:78-141 | the reference recursion of one `_cfr` call from a cache: the visited key ends up cached and the returned value pair is well sized; a cached node that does not fit its key, which the solver's cache invariant excludes, is left as it is with zero values |
| LeducSearch.CfrChildren | poker_bots/leduc_poker/rebel/search.py:107-127 | the reference of the first `j` iterations of the action loop: one well-sized value pair per action visited, in order, each child seeing the cache the previous one left |
| LeducSearch.UpdateBalances | poker_bots/leduc_poker/rebel/search.py:87-139 | after the update at a decision node the stored strategy is a distribution for every hand, the node value is the strategy-weighted sum of the action values, the regrets grow by the per-action increments, and those increments balance to zero under the strategy |
| LeducSearch.VisitedDecisionNode | poker_bots/leduc_poker/rebel/search.py:78-141 | one reference visit of a decision node leaves it in that balanced state: every property the update promises holds of the node `_cfr` stores |
| LeducSearch.CFRSolver.Cfr | poker_bots/leduc_poker/rebel/search.py:78-141 | returns and leaves exactly what the reference recursion gives from the old cache; in particular terminal nodes return their payoffs, leaves the network values, and internal nodes the node EV of the matched strategy with the CFR update stored; only the subtree's nodes change; the cache invariant is kept |
| LeducSearch.CFRSolver.VisitDecision | poker_bots/leduc_poker/rebel/search.py:87-141 | the decision-node part of `_cfr` equals the reference visit from the cache before the node was fetched, and changes only the node's subtree |
| LeducSearch.CFRSolver.StoreMatchedStrategy | poker_bots/leduc_poker/rebel/search.py:87-97 | the node's strategy becomes the per-hand regret matching of its regret sums, stored in the cache and nothing else changed |
| LeducSearch.CFRSolver.VisitChild | poker_bots/leduc_poker/rebel/search.py:107-127 | one child's recursion returns and leaves exactly the reference visit of the child, with the bets after the action and the actor's reach scaled by the action's probability; the node itself is kept |
| LeducSearch.CFRSolver.VisitChildren | poker_bots/leduc_poker/rebel/search.py:107-127 | the child loop returns one value pair per action and leaves the cache exactly as the reference of the whole loop does; only the subtree below the node changes |
| LeducSearch.AvgPlayValue | poker_bots/leduc_poker/rebel/search.py:143-191 | the reference recursion of `_compute_ev`: the value pair of the subtree when every node plays its average strategy, always well sized |
| LeducSearch.AvgChildren | poker_bots/leduc_poker/rebel/search.py:164-184 | the reference of the first `j` child evaluations under the average strategy: one well-sized value pair per action |
| LeducSearch.AvgPlayValueStable | poker_bots/leduc_poker/rebel/search.py:143-150 | the value under average play depends only on what each key looks up to, so nodes created along the way do not change it |
| LeducSearch.CFRSolver.ComputeEv | poker_bots/leduc_poker/rebel/search.py:143-191 | returns exactly the reference value under average play from the old cache, its per-action values equal the reference child evaluations; terminal and leaf cases give payoffs and network values; the cache only grows, within the subtree |
| LeducSearch.CFRSolver.EvaluateChild | poker_bots/leduc_poker/rebel/search.py:164-184 | one child's evaluation equals the reference value of the child under average play, both from the cache before it and from the cache the loop started with; the cache only grows |
| LeducSearch.CFRSolver.EvaluateChildren | poker_bots/leduc_poker/rebel/search.py:164-191 | the child loop returns exactly the reference child evaluations, one per action; the cache only grows, within the subtree |
| LeducSearch.CFRSolver.RunSweeps | poker_bots/leduc_poker/rebel/search.py:63-69 | the cache is emptied and then holds exactly the result of `max(iterations, 0)` reference sweeps from the root, with only the root's subtree in it and the invariant kept |
| LeducSearch.CFRSolver.ClearCache | poker_bots/leduc_poker/rebel/search.py:64 | the emptied cache is the one the reference sweeps start from, and keeps the cache invariant |
| LeducSearch.CFRSolver.Sweep | poker_bots/leduc_poker/rebel/search.py:68-69 | one iteration turns the cache after `i` reference sweeps into the cache after `i + 1`, staying within the root's subtree |
| LeducSearch.CFRSolver.Solve | poker_bots/leduc_poker/rebel/search.py:63-76 | after the sweeps the returned strategy is the average strategy of the swept root and the value equals the reference value under average play of the swept cache; the cache holds only the root's subtree and only grew after the sweeps |
| LeducSearch.CFRSolver.constructor | poker_bots/leduc_poker/rebel/search.py:21-26 | keeps the value network and iteration count, starts with an empty cache |
| LeducEnv.ShuffleIsPermutation | poker_bots/leduc_poker/leduc_env.py:14-19 | a deck is a shuffle (six different raw-deck cards) exactly when it has the raw deck's multiset |
| LeducEnv.PermutationIsShuffle | poker_bots/leduc_poker/leduc_env.py:14-19 | every permutation of the raw deck meets the deal precondition |
| LeducEnv.ShuffleIsPermutationOf | poker_bots/leduc_poker/leduc_env.py:14-19 | every deck meeting the deal precondition is a permutation of the raw deck |
| LeducEnv.LegalActions | poker_bots/leduc_poker/leduc_env.py:57-90 | fold iff the opponent's bet is higher; check/call always; raise iff fewer than two raises; ascending |
| LeducEnv.LegalActionsMatchRules | poker_bots/leduc_poker/leduc_env.py:57-90 | from equal bets, every open round offers exactly the actions the solver's rules allow |
| LeducEnv.FoldRewards | poker_bots/leduc_poker/leduc_env.py:104-116 | the folder loses its bet and the opponent wins it; zero-sum |
| LeducEnv.ShowdownRewards | poker_bots/leduc_poker/leduc_env.py:188-228 | a tie pays nothing; otherwise the winner nets the loser's bet; zero-sum |
| LeducEnv.ShowdownMatchesRules | poker_bots/leduc_poker/leduc_env.py:188-228 | the environment's showdown agrees with the solver's winner and payoff rules on card indices |
| LeducEnv.LeducHoldemEnv.constructor | poker_bots/leduc_poker/leduc_env.py:13-39 | deals from the given shuffle with antes of 1, pot 2, round 0 |
| LeducEnv.LeducHoldemEnv.Reset | poker_bots/leduc_poker/leduc_env.py:18-39 | deals hands and board from the shuffle, empty history, round 0, player 0, pot 2, bets 1/1, no raises; the three cards differ |
| LeducEnv.LeducHoldemEnv.GetState | poker_bots/leduc_poker/leduc_env.py:41-55 | own card, board only in round 1, round, the history, the pot |
| LeducEnv.LeducHoldemEnv.EndRound | poker_bots/leduc_poker/leduc_env.py:165-186 | round 0 moves to round 1 with empty history, no raises, player 0; round 1 ends the hand with the showdown payoffs stored |
| LeducEnv.LeducHoldemEnv.Step | poker_bots/leduc_poker/leduc_env.py:92-163 | an action is refused exactly when it is not legal, and then nothing changes; a fold returns the fold rewards and ends, leaving bets, history, round, turn, raise count and payoffs as they were; a check/call matches a higher bet, passes the turn after a first check, moves to round 1 after a call or check-check in round 0 and stores the showdown payoffs after one in round 1, keeping round, history, raise count and turn; a raise puts the actor 2 (round 0) or 4 (round 1) above the opponent, counts, appends 2 and passes the turn; the deck and cards never change |
| LeducEnv.LeducHoldemEnv.Fold | poker_bots/leduc_poker/leduc_env.py:104-116 | done, fold rewards, nothing else changes |
| LeducEnv.LeducHoldemEnv.CheckCall | poker_bots/leduc_poker/leduc_env.py:118-138 | a call matches the bet and ends the round; check-check ends it; a first check passes the turn; a showdown returns zero rewards with the payoffs in `final_payoffs` and keeps round, history, raise count and turn |
| LeducEnv.LeducHoldemEnv.Raise | poker_bots/leduc_poker/leduc_env.py:140-157 | the actor's bet becomes the opponent's plus 2 (round 0) or 4 (round 1); raise counted, 2 appended, turn passed |
| CfrTrainer.Node.constructor | poker_bots/leduc_poker/cfr_trainer.py:7-11 | three zero vectors of length 3 |
| CfrTrainer.Node.GetStrategy | poker_bots/leduc_poker/cfr_trainer.py:13-26 | the strategy is regret matching (positive regrets over their total, else 1/3), a distribution; strategy sums grow by weight times strategy; regrets unchanged |
| CfrTrainer.Node.WritePositiveRegrets | poker_bots/leduc_poker/cfr_trainer.py:14-17 | the first loop writes the positive regrets and returns their total |
| CfrTrainer.Node.NormalizeAndAccumulate | poker_bots/leduc_poker/cfr_trainer.py:19-24 | the second loop divides by a positive total or writes 1/3, and accumulates |
| CfrTrainer.Node.GetAverageStrategy | poker_bots/leduc_poker/cfr_trainer.py:28-36 | the sums scaled to total one when positive (a distribution for non-negative sums), else uniform; reads only |
| CfrTrainer.MatchedIsRegretMatching | poker_bots/leduc_poker/cfr_trainer.py:15-23 | the two loops' result equals the shared regret-matching definition |
| CfrTrainer.StrategySumStaysNonNegative | poker_bots/leduc_poker/cfr_trainer.py:24 | non-negative weights keep the strategy sums non-negative |
| CfrTrainer.InfoSetLayout | poker_bots/leduc_poker/cfr_trainer.py:43-51 | the key is the rank digit, `|`, the board digit or `x`, `|`, one digit per action |
| CfrTrainer.InfoSetKeyInjective | poker_bots/leduc_poker/cfr_trainer.py:43-51 | two states share a key iff they agree on card rank, board rank (or its absence) and history |
| KuhnCfr.InfosetNode.constructor | poker_bots/kuhn_poker/kuhn_CFR.py:10-14 | three zero vectors of length 2 |
| KuhnCfr.InfosetNode.GetStrategy | poker_bots/kuhn_poker/kuhn_CFR.py:16-29 | regret matching with a nonzero-total test, else 1/2 each; a distribution; strategy sums grow by strategy times weight; regrets untouched |
| KuhnCfr.InfosetNode.WritePositiveRegrets | poker_bots/kuhn_poker/kuhn_CFR.py:17-20 | `max(regret, 0)` per action and their total |
| KuhnCfr.InfosetNode.NormalizeAndAccumulate | poker_bots/kuhn_poker/kuhn_CFR.py:22-27 | division by a nonzero total or 1/2, then accumulation |
| KuhnCfr.InfosetNode.GetAvgStrategy | poker_bots/kuhn_poker/kuhn_CFR.py:31-41 | the node's average strategy, reading only |
| KuhnCfr.AvgStrategy | poker_bots/kuhn_poker/kuhn_CFR.py:31-41 | sums over a nonzero total, else uniform; always totals one; a distribution for non-negative sums |
| KuhnCfr.MatchedIsRegretMatching | poker_bots/kuhn_poker/kuhn_CFR.py:17-26 | the loops' result with the nonzero test equals the shared regret matching |
| KuhnCfr.AvgStrategyAgreesWithAverageOf | poker_bots/kuhn_poker/kuhn_CFR.py:31-41 | for non-negative sums the nonzero test agrees with the positive-total test |
| RegretMatching.MatchRegrets | poker_bots/leduc_poker/cfr_trainer.py:13-23 | the regret-matched strategy is a distribution, positive exactly on the positive regrets, uniform when no regret total exceeds the threshold |
| RegretMatching.MatchedEntryAtZero | poker_bots/kuhn_poker/kuhn_CFR.py:22-26 | with threshold zero, an entry is the positive regret over a nonzero total, else 1/n |
| RegretMatching.AverageOf | poker_bots/leduc_poker/cfr_trainer.py:28-36 | sums scaled to total one above the threshold, a distribution for non-negative sums, else uniform |
| KuhnEnv.CalculatePayoffs | poker_bots/kuhn_poker/kuhn_poker_env.py:53-84 | [0,0] pays the higher card 1; [1,1] and [0,1,1] pay it 2; [1,0] pays player 0 and [0,1,0] pays player 1 whatever the cards; other histories pay 0; always zero-sum |
| KuhnEnv.WinnerTakes | poker_bots/kuhn_poker/kuhn_poker_env.py:62-82 | the winner receives the amount and the loser pays it |
| KuhnEnv.PlayEnds | poker_bots/kuhn_poker/kuhn_poker_env.py:46-51 | legal play ends within three actions, exactly at the five terminal histories, each with a nonzero payoff |
| KuhnEnv.PrefixOfThree | poker_bots/kuhn_poker/kuhn_poker_env.py:50 | any three-action history is terminal |
| KuhnEnv.BinaryDigits | poker_bots/kuhn_poker/kuhn_poker_env.py:27 | a pass/bet history is written as one digit per action |
| KuhnEnv.KuhnPokerEnv.constructor | poker_bots/kuhn_poker/kuhn_poker_env.py:9-20 | deals from the given shuffle with an empty history, player 0 to act |
| KuhnEnv.KuhnPokerEnv.Reset | poker_bots/kuhn_poker/kuhn_poker_env.py:13-20 | deals deck[0] and deck[1] (different cards), empty history, player 0, pot 2, not done |
| KuhnEnv.KuhnPokerEnv.GetState | poker_bots/kuhn_poker/kuhn_poker_env.py:22-28 | the player's own card and the history as a digit string |
| KuhnEnv.KuhnPokerEnv.Step | poker_bots/kuhn_poker/kuhn_poker_env.py:30-44 | always appends the action; a terminal history ends with the payoffs; otherwise the turn flips with zero rewards |
| KuhnEnv.DealtCardsDistinct | poker_bots/kuhn_poker/kuhn_poker_env.py:13-15 | a shuffled three-card deck holds three different cards |
| SlumbotClient.ParseAction | poker_bots/slumbot/client.py:66-189 | the character loop computes `Parse`, the one-step-per-character definition |
| SlumbotClient.Step | poker_bots/slumbot/client.py:103-180 | one character either ends the parse or moves strictly forward within the string |
| SlumbotClient.ParseChar | poker_bots/slumbot/client.py:103-180 | one pass of the loop body computes exactly `Step` |
| SlumbotClient.EndStreetAt | poker_bots/slumbot/client.py:109-113 | the slash check after a street-ending check or call computes exactly `AfterStreetEnd` |
| SlumbotClient.RunOneStep | poker_bots/slumbot/client.py:100-189 | the run from a position is one step followed by the run from where it leaves off, or the step's result when it stops |
| SlumbotClient.ParseInRange | poker_bots/slumbot/client.py:100-189 | every successful parse has street 0..3, position -1..1 and a street level between 0 and the total; "Unexpected error" never occurs |
| SlumbotClient.RunInRange | poker_bots/slumbot/client.py:100-189 | the loop keeps street, position and levels in range |
| SlumbotClient.RunNeverUnexpected | poker_bots/slumbot/client.py:100-102 | the street never passes the last, so that error is unreachable |
| SlumbotClient.StepInRange | poker_bots/slumbot/client.py:103-180 | one character keeps the state in range |
| SlumbotClient.EmptyActionIsInitial | poker_bots/slumbot/client.py:72-96 | the empty string gives street 0, position 1, levels 100/100, bet size 50, bettor 0 |
| SlumbotClient.IllegalChecksCallsAndFold | poker_bots/slumbot/client.py:105-180 | a check facing a bet is "Illegal check"; a call facing none is "Illegal call"; a fold returns with position -1 and the rest as it stood; any other character is "Unexpected char" |
| SlumbotClient.BetDigits | poker_bots/slumbot/client.py:166-172 | the digits after `b` run exactly over the written level and read back as that level |
| SlumbotClient.BetRoundTrip | poker_bots/slumbot/client.py:166-178 | `b` and the decimal text of n sets the street level to n, the bet size to the raise, adds it to the total, records the bettor and passes the turn |
| SlumbotClient.StreetEnds | poker_bots/slumbot/client.py:108-118 | the second check or call ends the street: before the river the next street with position 0 and level 0, a following non-slash is "Missing slash"; on the river position -1 |
| SlumbotClient.AllInCall | poker_bots/slumbot/client.py:124-140 | calling at a total of 20000 ends on the river with position -1 and bet size 0; trailing non-slashes are "Extra chars" |
| SlumbotClient.DigitRunEndOver | poker_bots/slumbot/client.py:167-169 | the digit scan stops at the first non-digit |
| SlumbotClient.RaiseCallExample | poker_bots/slumbot/client.py:100-189 | "b300c/" parses to the flop, position 0, total 300, no bet to face |
| SlumbotAgent.ValidActions | poker_bots/slumbot/agent.py:17-61 | `k` iff no bet to face, `f` and `c` iff facing one, `b` iff chips remain below the 20000 stack |
| SlumbotAgent.BetAmount | poker_bots/slumbot/agent.py:65-111 | all-in when the minimum raise exceeds what remains; else a level from street level plus minimum raise up to all-in, or all-in when that range is empty; never above all-in |
| SlumbotAgent.BetAmountCoversRange | poker_bots/slumbot/agent.py:100-111 | every level of the random range is drawn for some draw |
| SlumbotAgent.GetAction | poker_bots/slumbot/agent.py:63-115 | one offered letter, or `b` followed by the decimal bet level |
| SlumbotAgent.EveryOfferedActionChosen | poker_bots/slumbot/agent.py:63 | every offered letter is sent for some draw |
| SlumbotAgent.SentBetParses | poker_bots/slumbot/agent.py:65-113 | on any parsed state, the parser reads a sent bet back as a raise to exactly its level, and the total stays within the stack |
| SlumbotRebelAgent.HistoryShape | poker_bots/slumbot/rebel_agent.py:60-66 | one code per action letter, each 0..2 |
| SlumbotRebelAgent.ReBeLAgent.constructor | poker_bots/slumbot/rebel_agent.py:26-33 | both beliefs start uniform at 1/1326 over the 1326 hands; the strength table is kept as given |
| SlumbotRebelAgent.HistoryAppend | poker_bots/slumbot/rebel_agent.py:60-66 | the history of a concatenation is the concatenation of the histories |
| SlumbotRebelAgent.ReBeLAgent.HistoryFromActionStr | poker_bots/slumbot/rebel_agent.py:60-66 | the loop yields the codes f→0, c/k→1, b→2 of the letters, in order |
| SlumbotRebelAgent.LastLetter | poker_bots/slumbot/rebel_agent.py:76-86 | the index of the last action letter, none when there is none |
| SlumbotRebelAgent.ReBeLAgent.ScanLastAction | poker_bots/slumbot/rebel_agent.py:74-86 | the backward loop finds the last letter and the digits after it |
| SlumbotRebelAgent.TrailingBetIsRead | poker_bots/slumbot/rebel_agent.py:76-92 | for a string ending in `b`, a decimal level and slashes, the scan finds `b` and reads the level back |
| SlumbotRebelAgent.StrengthWeight | poker_bots/slumbot/rebel_agent.py:94-95 | the strength weight lies in [0.5, 1] |
| SlumbotRebelAgent.WeightsShape | poker_bots/slumbot/rebel_agent.py:93-100 | all ones unless the last action is a positive bet; then every weight lies between 1/2 and the hand's strength, is monotone in strength and non-negative |
| SlumbotRebelAgent.BetWeightsMonotone | poker_bots/slumbot/rebel_agent.py:93-97 | facing a positive bet, a stronger hand never gets a smaller weight |
| SlumbotRebelAgent.BetWeightsBetween | poker_bots/slumbot/rebel_agent.py:93-97 | facing a positive bet, each weight is a mix of 1/2 and the strength, so it lies between them |
| SlumbotRebelAgent.MixBetween | poker_bots/slumbot/rebel_agent.py:95-97 | a convex mix of 1/2 and a strength lies between the two |
| SlumbotRebelAgent.UpdatedBeliefIsDistribution | poker_bots/slumbot/rebel_agent.py:101-104 | with a reweighted total above 1e-9 the updated belief is a distribution |
| SlumbotRebelAgent.ReBeLAgent.UpdateOpponentBelief | poker_bots/slumbot/rebel_agent.py:68-104 | the opponent belief becomes the reweighted and renormalized belief; the own belief is untouched |
| SlumbotRebelAgent.ReBeLAgent.GetAction | poker_bots/slumbot/rebel_agent.py:114-167 | the history read, the belief shifted and the command for the searched index |
| SlumbotRebelAgent.CommandsAreSensible | poker_bots/slumbot/rebel_agent.py:114-167 | indices 0..3 send letters the random agent would offer; other indices check; the pot raise is capped at 20000 and otherwise at least a minimum raise above the street level; a weak all-in is downgraded |
| SlumbotRebelAgent.PotRaiseParses | poker_bots/slumbot/rebel_agent.py:156-162 | the pot-raise command is parsed back as a bet to its level |
| NlheGame.Deck | poker_bots/slumbot/rebel/game.py:86-88 | card k is rank k/4 with suit bit [1,2,4,8][k%4] |
| NlheGame.DeckDistinct | poker_bots/slumbot/rebel/game.py:86-88 | the 52 cards differ |
| NlheGame.GetLegalActions | poker_bots/slumbot/rebel/game.py:19-55 | fold iff the two bets differ; 1, 2, 3 always; strictly ascending in 0..3 |
| NlheGame.LegalActionsIgnoreHistoryPotStacks | poker_bots/slumbot/rebel/game.py:19-55 | history, pot and stacks do not affect the result |
| NlheGame.GetWinner | poker_bots/slumbot/rebel/game.py:57-73 | 0 iff player 0's score is lower, 1 iff player 1's is, -1 iff equal |
| NlheGame.GetWinnerAntisymmetric | poker_bots/slumbot/rebel/game.py:57-73 | swapping the hands swaps 0 and 1 and keeps a tie |
| NlheGame.RowsUpToLength | poker_bots/slumbot/rebel/game.py:89-93 | the first i rows of the double loop hold i(2n-i-1)/2 pairs |
| NlheGame.RowsUpToSorted | poker_bots/slumbot/rebel/game.py:89-93 | the pairs come in strictly increasing lexicographic order |
| NlheGame.RowsUpToComplete | poker_bots/slumbot/rebel/game.py:89-93 | every pair a < b with a in the first i rows is present |
| NlheGame.AllHandsShape | poker_bots/slumbot/rebel/game.py:85-93 | 1326 hands, each two deck cards in deck order, every pair present, none twice, lexicographic |
| NlheGame.GetAllHands | poker_bots/slumbot/rebel/game.py:85-93 | the double loop builds exactly that list |
| NlheGame.AppendRow | poker_bots/slumbot/rebel/game.py:89-93 | the inner loop appends exactly row i of the pairs (i, j), j > i, as deck cards |
| NlheFeatures.SuitIndex | poker_bots/slumbot/rebel/features.py:9-17 | suit bits 1/2/4/8 map to 0..3 and back; anything else to 0 |
| NlheFeatures.GetCardIndex | poker_bots/slumbot/rebel/features.py:5-19 | rank·4 + suit index: in 0..51 for ranks 0..12, with the rank and suit recoverable |
| NlheFeatures.CardIndexInjective | poker_bots/slumbot/rebel/features.py:13-19 | cards with valid suits share an index iff they are equal |
| NlheFeatures.CardIndexOfDeck | poker_bots/slumbot/rebel/features.py:5-19 | the index of deck card k is k |
| NlheFeatures.GetNlheFeatures | poker_bots/slumbot/rebel/features.py:21-54 | the index-writing loops build exactly the block-by-block feature vector |
| NlheFeatures.BoardVector | poker_bots/slumbot/rebel/features.py:36-40 | the board loop leaves 1 exactly at the indices of board cards |
| NlheFeatures.HistoryVector | poker_bots/slumbot/rebel/features.py:50-52 | the history loop writes the last 50 actions from slot 0, zeros after |
| NlheFeatures.FeatureLength | poker_bots/slumbot/rebel/features.py:30-54 | 1326-hand ranges and two stacks give 2757 inputs |
| NlheFeatures.FeatureBlocks | poker_bots/slumbot/rebel/features.py:30-54 | ranges unchanged in front; board block 1 at every board card's index and 0 off the board; pot and stacks over 100 |
| NlheFeatures.HistoryBlockEntries | poker_bots/slumbot/rebel/features.py:48-52 | slot i holds the i-th of the last 50 actions, 0 past them |
| LeducFeatures.BoardSlot | poker_bots/leduc_poker/rebel/features.py:23-28 | slot 0 without a board, rank + 1 with one |
| LeducFeatures.GetFeatures | poker_bots/leduc_poker/rebel/features.py:4-49 | the index-writing loops build exactly the block-by-block feature vector |
| LeducFeatures.FeatureLength | poker_bots/leduc_poker/rebel/features.py:23-49 | six-card ranges give 47 inputs |
| LeducFeatures.FeatureBlocks | poker_bots/leduc_poker/rebel/features.py:16-49 | ranges unchanged in front, then the one-hot board block and pot/20 |
| LeducFeatures.HistoryBlockDecodes | poker_bots/leduc_poker/rebel/features.py:40-45 | slot 3i + a is set exactly when the i-th of the last ten actions is a; slots past the window are 0 |
| Fifo.NewestAppend | poker_bots/leduc_poker/rebel/train.py:13-16 | keeping the newest n after each append keeps the newest n of the whole stream |
| LeducTrain.Pushed | poker_bots/leduc_poker/rebel/train.py:13-16 | a deque append with `maxlen`: the newest `capacity` items of buffer plus item, the item last |
| LeducTrain.ReplayBuffer.Push | poker_bots/leduc_poker/rebel/train.py:15-16 | the buffer becomes the pushed deque and never exceeds its capacity |
| LeducTrain.ReplayBuffer.Len | poker_bots/leduc_poker/rebel/train.py:23-24 | the length, at most the capacity |
| LeducTrain.ReplayBuffer.constructor | poker_bots/leduc_poker/rebel/train.py:12-13 | an empty buffer of the given capacity |
| LeducTrain.BufferHoldsNewest | poker_bots/leduc_poker/rebel/train.py:11-24 | pushing one at a time holds the newest `capacity` items of the stream in order |
| LeducTrain.CardIndex | poker_bots/leduc_poker/rebel/train.py:51-52 | rank·2 + suit lies in 0..5 and recovers the rank |
| LeducTrain.CardIndexOfDeck | poker_bots/leduc_poker/rebel/train.py:44-52 | deck card k has index k |
| LeducTrain.DivideBySum | poker_bots/leduc_poker/rebel/train.py:85-86 | division by the sum, undefined (NaN) exactly when it is zero; otherwise totals one |
| LeducTrain.RevealZeroesBoardCard | poker_bots/leduc_poker/rebel/train.py:81-86 | after the reveal the board card has probability 0, each belief totals one and the others keep their proportions; NaN exactly when a belief had no mass off the board card |
| LeducTrain.ActedBeliefIsDistribution | poker_bots/leduc_poker/rebel/train.py:141-146 | the actor's belief times its action probabilities, normalized, is a distribution and zero where the action had probability zero |
| LeducTrain.DriverBetsMatchSolver | poker_bots/leduc_poker/rebel/train.py:150-157 | the driver's bet update equals the solver's transition: a raise leads by 2 or 4, a call equalizes |
| LeducTrain.FirstRoundFoldRevealsBoard | poker_bots/leduc_poker/rebel/train.py:69-96 | as written, a first-round fold reveals the board and play continues |
| LeducTrain.IntendedRoundEndOutcome | poker_bots/leduc_poker/rebel/train.py:69-96 | with the fold test first, a fold always ends the game and otherwise the outcome is unchanged |
| LeducTrain.IntendedGameEnds | poker_bots/leduc_poker/rebel/train.py:69-96 | the game ends exactly on a fold or on a round end once the board is out; the board is revealed only after a check or call |
| LeducTrain.SelfPlayGame.constructor | poker_bots/leduc_poker/rebel/train.py:43-64 | cards from the shuffled deck, empty history, bets 1/1, no board, uniform beliefs of 1/6 |
| LeducTrain.SelfPlayGame.CheckRoundEnd | poker_bots/leduc_poker/rebel/train.py:69-92 | on a finished first round the board rank is set, the history cleared and both beliefs revealed; otherwise nothing changes |
| LeducTrain.SelfPlayGame.Act | poker_bots/leduc_poker/rebel/train.py:139-159 | the actor's belief is reweighted, the other kept, the bets move as the driver's update, the action is appended |
| SlumbotTrain.ReplayBuffer.constructor | poker_bots/slumbot/rebel/train.py:11-12 | an empty list whatever capacity is given |
| SlumbotTrain.ReplayBuffer.Push | poker_bots/slumbot/rebel/train.py:13-16 | the item is appended, the oldest dropped past 1000, the rest keep their order: the newest 1000 |
| SlumbotTrain.ReplayBuffer.Len | poker_bots/slumbot/rebel/train.py:21-22 | the list length, at most 1000 |
| SlumbotTrain.FilledIsNewest | poker_bots/slumbot/rebel/train.py:13-16 | pushing a stream one by one leaves its newest 1000 items in order |
| LeducAgents.RandomAct | poker_bots/leduc_poker/agents.py:34 | one of 0, 1, 2, legal or not, chosen by the draw |
| LeducAgents.ChooseReachesAll | poker_bots/leduc_poker/agents.py:34 | every option is drawn by some draw |
| LeducAgents.HeuristicRules | poker_bots/leduc_poker/agents.py:43-62 | raise on a pair with the board; else a King calls or raises, a Queen calls, a Jack folds or calls |
| LeducAgents.HeuristicFoldsOnlyLowCards | poker_bots/leduc_poker/agents.py:43-62 | a fold never comes from a King, a Queen or a pair |
| LeducAgents.HeuristicIgnoresHistoryAndPot | poker_bots/leduc_poker/agents.py:43-62 | history, pot, round and suits are never read |
| KuhnAgents.RandomAct | poker_bots/kuhn_poker/agents.py:12-13 | pass or bet, chosen by the draw |
| KuhnAgents.HeuristicRules | poker_bots/kuhn_poker/agents.py:22-26 | a King bets, a Jack passes, a Queen acts as the random agent; the history is ignored |
| KuhnAgents.QueenTakesBoth | poker_bots/kuhn_poker/agents.py:26 | a Queen passes on one draw and bets on another |
| Decimal.DigitsValueOfNatToString | poker_bots/slumbot/client.py:170 | reading back the decimal text of n gives n |
| Decimal.JoinSingleDigitsInjective | poker_bots/leduc_poker/cfr_trainer.py:50 | joined single-digit histories are equal iff the histories are |

## Left out

- Network I/O: `SlumbotClient.login`, `new_hand` and `act` are HTTP calls, and the Slumbot drivers are left out.
- Torch and numpy numerics are left out: network forward passes, optimizers, training loops and `ReplayBuffer.sample` are random or floating point. The value network is an uninterpreted function returning a 3×12 table.
- Floating point is modelled as exact `real` arithmetic. NaN from a division by zero becomes `None`.
- `_hand_strength_bucket` and the Slumbot search (`solve_subgame`, `get_action_from_strategy`) are left out. The strength and the searched index are inputs of `SlumbotRebelAgent.ReBeLAgent.GetAction`.
- treys is left out:
  - `Card.new` becomes the datatype `NlheGame.Card(rank, suitInt)`, which is injective by construction;
  - the evaluator is a function parameter of `NlheGame.GetWinner`.
- `LeducCFRTrainer.mccfr` is a stub returning `None`, so `LeducCFRTrainer.train` raises a `TypeError` at its first `util += ...` (poker_bots/leduc_poker/cfr_trainer.py:72, 76-80); both are left out, and so is the unfinished `StandaloneLeducCFR`, whose `cfr` returns 0. So is Kuhn's `KuhnCFRTrainer.cfr`: it concatenates an int with a string and is not part of the modelled node.
- Randomness is left out: shuffles, `random.choice` and `random.randint` are parameters.
- SlumbotRebelAgent.ScanBack: `str.isdigit` is modelled for ASCII digits only, so any other character after the last letter is skipped and the bet is read from the ASCII digits alone (for `b5²` the model reads 5, where the source's `int()` would raise and its `try` give 0). Slumbot's action strings are ASCII, so this does not arise there.
- SlumbotRebelAgent.ReBeLAgent.ScanLastAction: the `if last: break` on a slash is omitted. `last` is empty whenever a slash is reached, because the loop stops at the first letter, so that branch never runs.
- LeducTrain.SelfPlayGame.CheckRoundEnd: it requires that both beliefs keep mass off the board card. The source divides without a guard and would produce NaN, and `LeducTrain.RevealZeroesBoardCard` states exactly when that happens.
- LeducTrain.SelfPlayGame: the search call, the pushing of features and the sampling of the action are left out. The action and its strategy row are inputs of `Act`.
- Leduc and Slumbot feature vectors: tensors are `seq<real>`. Torch's negative indexing is modelled for the Leduc board slot and history slots, and an index outside the tensor (an `IndexError`) is excluded by precondition.

Where the behaviour differs from a textbook account, the model follows the code:
- the solver's regret increment is not weighted by the opponent's reach;
- the showdown excludes only the identical card;
- leaf ranges are normalized by their sum only;
- the Leduc environment returns a zero reward at showdown and keeps the payoffs in `final_payoffs`, which `reset` does not clear;
- the Slumbot trainer's buffer ignores its `capacity` argument and keeps 1000 items;
- an index outside 0..3 in the ReBeL agent sends `k` even when facing a bet;
- poker_bots/kuhn_poker/kuhn_CFR.py:3 reads `PASS = 0, BET = 1`, which Python rejects as a syntax error, so that module cannot be imported as written. The `KuhnCfr` model follows lines 9-41 as if line 3 read `PASS, BET = 0, 1`.
- Kuhn's `get_startegy` tests the total for being nonzero rather than positive. `KuhnCfr.AvgStrategyAgreesWithAverageOf` shows the two tests agree for non-negative sums.

## Findings

| source | as written | input that shows it | evidently intended | confidence | as-written member | corrected member |
|---|---|---|---|---|---|---|
| poker_bots/leduc_poker/rebel/train.py:69-96 | `is_terminal_round` is true on a fold, so a first-round fold reveals the board and play continues; the fold test at line 95 is never reached by a fold | history [2, 0] with no board: raise, then fold | a fold ends the game in either round | not executed | LeducTrain.FirstRoundFoldRevealsBoard | LeducTrain.IntendedGameEnds |
