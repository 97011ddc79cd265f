/**
 * The scripted Kuhn opponents (`kuhn_poker/agents.py`). `random.choice` is an
 * injected number: the agent takes the element at `choice` modulo the list's length.
 */
module KuhnAgents {
  const PASS := 0
  const BET := 1

  /** `RandomAgent.act`: pass or bet; the state is not read. */
  function RandomAct(choice: nat): (a: int)
    ensures a == PASS || a == BET
    ensures a == choice % 2
  {
    [PASS, BET][choice % 2]
  }

  /** `HeuristicAgent.act`: a King bets/calls, a Jack passes/folds, a Queen is random. */
  function HeuristicAct(card: int, history: string, choice: nat): (a: int)
  {
    if card == 2 then BET
    else if card == 0 then PASS
    else [PASS, BET][choice % 2]
  }

  /** The heuristic's rules for every card and draw; the history string plays no part. */
  lemma HeuristicRules(card: int, history: string, other: string, choice: nat)
    ensures card == 2 ==> HeuristicAct(card, history, choice) == BET
    ensures card == 0 ==> HeuristicAct(card, history, choice) == PASS
    ensures card == 1 ==> HeuristicAct(card, history, choice) == RandomAct(choice)
    ensures HeuristicAct(card, history, choice) == HeuristicAct(card, other, choice)
  {
  }

  /** A Queen can go either way: draw 0 passes and draw 1 bets. */
  lemma QueenTakesBoth(history: string)
    ensures HeuristicAct(1, history, 0) == PASS && HeuristicAct(1, history, 1) == BET
  {
  }
}
