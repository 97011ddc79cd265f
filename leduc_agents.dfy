/**
 * The scripted Leduc opponents (`leduc_poker/agents.py`). `random.choice` is an
 * injected number: the agent takes the element at `choice` modulo the list's length.
 */
module LeducAgents {
  import opened Options

  const FOLD := 0
  const CHECK_CALL := 1
  const BET_RAISE := 2

  /** The card ranks: Jack, Queen, King. */
  const JACK := 0
  const QUEEN := 1
  const KING := 2

  /** `random.choice(options)` with the draw `choice`. */
  function Choose(options: seq<int>, choice: nat): (a: int)
    requires |options| > 0
    ensures a in options
  {
    options[choice % |options|]
  }

  /** Every option is drawn by some choice. */
  lemma ChooseReachesAll(options: seq<int>, k: nat)
    requires k < |options|
    ensures Choose(options, k) == options[k]
  {
  }

  /** `RandomAgent.act`: any of the three actions, legal or not; the state is not read. */
  function RandomAct(choice: nat): (a: int)
    ensures a == FOLD || a == CHECK_CALL || a == BET_RAISE
    ensures a == choice % 3
  {
    Choose([FOLD, CHECK_CALL, BET_RAISE], choice)
  }

  /** The parts of the state dictionary the agents can see. */
  datatype State = State(card: (int, int), board: Option<(int, int)>, history: seq<int>, pot: real, round: int)

  /**
   * `HeuristicAgent.act`: raise on a pair with the board; otherwise a King calls or
   * raises, a Queen calls, and anything else checks/folds or calls.
   */
  function HeuristicAct(state: State, choice: nat): (a: int)
  {
    var cardRank := state.card.0;
    if state.board.Some? && cardRank == state.board.value.0 then BET_RAISE
    else if cardRank == KING then Choose([CHECK_CALL, BET_RAISE], choice)
    else if cardRank == QUEEN then CHECK_CALL
    else Choose([FOLD, CHECK_CALL], choice)
  }

  /** The heuristic's rules, case by case, for every draw. */
  lemma HeuristicRules(state: State, choice: nat)
    ensures var a := HeuristicAct(state, choice);
            var rank := state.card.0;
            var pair := state.board.Some? && rank == state.board.value.0;
            (pair ==> a == BET_RAISE) &&
            (!pair && rank == KING ==> a == CHECK_CALL || a == BET_RAISE) &&
            (!pair && rank == QUEEN ==> a == CHECK_CALL) &&
            (!pair && rank != KING && rank != QUEEN ==> a == FOLD || a == CHECK_CALL)
  {
  }

  /** A Queen without a pair never folds and never raises; nothing but a Jack-like card folds. */
  lemma HeuristicFoldsOnlyLowCards(state: State, choice: nat)
    ensures HeuristicAct(state, choice) == FOLD ==> state.card.0 != KING && state.card.0 != QUEEN
    ensures HeuristicAct(state, choice) == FOLD ==> state.board.None? || state.card.0 != state.board.value.0
  {
  }

  /** The history, the pot, the round and the card's suit are never consulted. */
  lemma HeuristicIgnoresHistoryAndPot(s1: State, s2: State, choice: nat)
    requires s1.card.0 == s2.card.0 && s1.board.Some? == s2.board.Some?
    requires s1.board.Some? ==> s1.board.value.0 == s2.board.value.0
    ensures HeuristicAct(s1, choice) == HeuristicAct(s2, choice)
  {
  }
}
