/**
 * Slumbot's `RandomAgent.get_action`: the letters it may send from the parsed state
 * and the street level of a bet. The two random draws (`random.choice` over the
 * offered letters, `random.randint` over the bet range) are injected as naturals.
 */
module SlumbotAgent {
  import Decimal
  import opened SlumbotClient

  function Max(a: int, b: int): int
  {
    if a >= b then a else b
  }

  /** The letters offered: check with no bet to face, else fold and call; bet while chips remain. */
  function ValidActions(s: ParsedAction): (r: string)
    ensures 'k' in r <==> s.lastBetSize == 0
    ensures 'f' in r <==> s.lastBetSize != 0
    ensures 'c' in r <==> s.lastBetSize != 0
    ensures 'b' in r <==> STACK_SIZE - s.totalLastBetTo > 0
    ensures |r| > 0 && forall i :: 0 <= i < |r| ==> r[i] in "kfcb"
  {
    (if s.lastBetSize == 0 then "k" else "fc") + (if STACK_SIZE - s.totalLastBetTo > 0 then "b" else "")
  }

  /** The smallest raise: a big blind, or the last bet if that was larger. */
  function MinRaise(s: ParsedAction): int
  {
    Max(BIG_BLIND, s.lastBetSize)
  }

  /** The street level of an all-in: the stack less what went in on earlier streets. */
  function MaxStreetBet(s: ParsedAction): int
  {
    STACK_SIZE - (s.totalLastBetTo - s.streetLastBetTo)
  }

  /**
   * The street level of a bet: all-in when the minimum raise exceeds what remains;
   * otherwise a level from the minimum raise up to all-in, or all-in when that range
   * is empty. `pick` stands for `random.randint`.
   */
  function BetAmount(s: ParsedAction, pick: nat): (amount: int)
    ensures amount <= MaxStreetBet(s)
    ensures MinRaise(s) > STACK_SIZE - s.totalLastBetTo ==> amount == MaxStreetBet(s)
    ensures MinRaise(s) <= STACK_SIZE - s.totalLastBetTo && s.streetLastBetTo + MinRaise(s) >= MaxStreetBet(s) ==>
              amount == MaxStreetBet(s)
    ensures MinRaise(s) <= STACK_SIZE - s.totalLastBetTo && s.streetLastBetTo + MinRaise(s) < MaxStreetBet(s) ==>
              s.streetLastBetTo + MinRaise(s) <= amount
  {
    var minRaise := MinRaise(s);
    var remaining := STACK_SIZE - s.totalLastBetTo;
    var maxStreetBet := MaxStreetBet(s);
    if minRaise > remaining then maxStreetBet
    else
      var minStreetBet := s.streetLastBetTo + minRaise;
      if minStreetBet >= maxStreetBet then maxStreetBet
      else minStreetBet + pick % (maxStreetBet - minStreetBet + 1)
  }

  /** Every level of the random range is drawn for some `pick`. */
  lemma BetAmountCoversRange(s: ParsedAction, amount: int)
    requires MinRaise(s) <= STACK_SIZE - s.totalLastBetTo
    requires s.streetLastBetTo + MinRaise(s) <= amount <= MaxStreetBet(s)
    ensures BetAmount(s, amount - (s.streetLastBetTo + MinRaise(s))) == amount
  {
  }

  /**
   * `get_action`: one offered letter, chosen by `choice`; a bet is sent as `b` and
   * the decimal street level.
   */
  function GetAction(s: ParsedAction, choice: nat, pick: nat): (command: string)
    ensures |command| == 1 ==> command[0] in ValidActions(s) && command[0] != 'b'
    ensures |command| != 1 ==> 'b' in ValidActions(s) && command == "b" + Decimal.IntToString(BetAmount(s, pick))
  {
    var valid := ValidActions(s);
    var action := valid[choice % |valid|];
    if action == 'b' then "b" + Decimal.IntToString(BetAmount(s, pick)) else [action]
  }

  /** Every offered letter is sent for some choice. */
  lemma EveryOfferedActionChosen(s: ParsedAction, letter: char, pick: nat)
    requires letter in ValidActions(s)
    ensures exists choice: nat :: GetAction(s, choice, pick) ==
              if letter == 'b' then "b" + Decimal.IntToString(BetAmount(s, pick)) else [letter]
  {
    var valid := ValidActions(s);
    var k :| 0 <= k < |valid| && valid[k] == letter;
    assert GetAction(s, k, pick) ==
           if letter == 'b' then "b" + Decimal.IntToString(BetAmount(s, pick)) else [letter];
  }

  /**
   * On any state the parser reports, a bet the agent sends is read back by the parser
   * as a bet to exactly that street level, and it never takes the total past the stack.
   */
  lemma SentBetParses(prefix: string, ps: ParseState, pick: nat, rest: string)
    requires InRange(ps)
    requires STACK_SIZE - ps.totalLastBetTo > 0
    requires |rest| == 0 || !Decimal.IsDigit(rest[0])
    ensures var amount := BetAmount(ps.Output(), pick);
            var command := "b" + Decimal.IntToString(amount);
            amount > ps.streetLastBetTo &&
            Step(prefix + command + rest, ps, |prefix|).Continue? &&
            Step(prefix + command + rest, ps, |prefix|).state.streetLastBetTo == amount &&
            Step(prefix + command + rest, ps, |prefix|).state.totalLastBetTo <= STACK_SIZE
  {
    var s := ps.Output();
    var amount := BetAmount(s, pick);
    assert amount > s.streetLastBetTo;
    BetRoundTrip(prefix, amount, rest, ps);
    assert prefix + ("b" + Decimal.IntToString(amount)) + rest == prefix + "b" + Decimal.NatToString(amount) + rest;
  }
}
