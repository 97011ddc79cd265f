/**
 * The parser of Slumbot's action strings (`SlumbotClient.parse_action`): `k` check,
 * `c` call, `f` fold, `b<digits>` bet to a street level, `/` between streets. It
 * tracks the street, the player to act and the bet levels, and reports named errors.
 */
module SlumbotClient {
  import Decimal

  const NUM_STREETS := 4
  const SMALL_BLIND := 50
  const BIG_BLIND := 100
  const STACK_SIZE := 20000

  /** The dictionary `parse_action` returns on success. */
  datatype ParsedAction = ParsedAction(
    st: int, pos: int, streetLastBetTo: int, totalLastBetTo: int, lastBetSize: int, lastBettor: int)

  datatype ParseResult = Parsed(action: ParsedAction) | ParseError(msg: string)

  /** The loop variables of `parse_action`. */
  datatype ParseState = ParseState(
    st: int, pos: int, streetLastBetTo: int, totalLastBetTo: int, lastBetSize: int, lastBettor: int,
    checkOrCallEndsStreet: bool)
  {
    function Output(): ParsedAction
    {
      ParsedAction(st, pos, streetLastBetTo, totalLastBetTo, lastBetSize, lastBettor)
    }
  }

  /** Before any action: preflop, small blind (position 1) to act, blinds of 50 and 100 posted. */
  const INITIAL := ParseState(0, 1, BIG_BLIND, BIG_BLIND, BIG_BLIND - SMALL_BLIND, 0, false)

  /** One pass of the loop either continues at a later index or returns. */
  datatype Outcome = Continue(state: ParseState, next: nat) | Stop(result: ParseResult)

  /** The index just past the run of digits starting at `i`. */
  function DigitRunEnd(action: string, i: nat): (e: nat)
    requires i <= |action|
    ensures i <= e <= |action|
    ensures forall k :: i <= k < e ==> Decimal.IsDigit(action[k])
    ensures e == |action| || !Decimal.IsDigit(action[e])
    decreases |action| - i
  {
    if i < |action| && Decimal.IsDigit(action[i]) then DigitRunEnd(action, i + 1) else i
  }

  predicate AllSlashes(t: string)
  {
    forall k :: 0 <= k < |t| ==> t[k] == '/'
  }

  /**
   * The second check or call of a street ends it: the last street sets position -1,
   * any other moves to the next street with the big blind (position 0) to act; the
   * street's bet level drops to 0.
   */
  function EndStreet(s: ParseState): ParseState
  {
    if s.st == NUM_STREETS - 1 then s.(pos := -1, streetLastBetTo := 0, checkOrCallEndsStreet := false)
    else s.(pos := 0, st := s.st + 1, streetLastBetTo := 0, checkOrCallEndsStreet := false)
  }

  /** Where the index goes after a street-ending check or call, or a missing slash. */
  function AfterStreetEnd(action: string, s: ParseState, i: nat, next: ParseState): Outcome
    requires i <= |action|
  {
    if s.st < NUM_STREETS - 1 && i < |action| then
      if action[i] != '/' then Stop(ParseError("Missing slash")) else Continue(next, i + 1)
    else
      Continue(next, i)
  }

  /** One pass of the `while` loop of `parse_action`, on the character at `i`. */
  function Step(action: string, s: ParseState, i: nat): (o: Outcome)
    requires i < |action|
    ensures o.Continue? ==> i < o.next <= |action|
  {
    if s.st >= NUM_STREETS then Stop(ParseError("Unexpected error"))
    else
      var c := action[i];
      var i := i + 1;
      if c == 'k' then
        if s.lastBetSize > 0 then Stop(ParseError("Illegal check"))
        else if s.checkOrCallEndsStreet then AfterStreetEnd(action, s, i, EndStreet(s))
        else Continue(s.(pos := (s.pos + 1) % 2, checkOrCallEndsStreet := true), i)
      else if c == 'c' then
        if s.lastBetSize == 0 then Stop(ParseError("Illegal call"))
        else if s.totalLastBetTo == STACK_SIZE then
          if AllSlashes(action[i..]) then Stop(Parsed(s.(st := NUM_STREETS - 1, pos := -1, lastBetSize := 0).Output()))
          else Stop(ParseError("Extra chars"))
        else if s.checkOrCallEndsStreet then
          AfterStreetEnd(action, s, i, EndStreet(s).(lastBetSize := 0, lastBettor := -1))
        else
          Continue(s.(pos := (s.pos + 1) % 2, checkOrCallEndsStreet := true, lastBetSize := 0, lastBettor := -1), i)
      else if c == 'f' then Stop(Parsed(s.(pos := -1).Output()))
      else if c == 'b' then
        var e := DigitRunEnd(action, i);
        if e == i then Stop(ParseError("Missing bet size"))
        else
          var newStreetLastBetTo := Decimal.DigitsValue(action[i..e]);
          var newLastBetSize := newStreetLastBetTo - s.streetLastBetTo;
          Continue(s.(lastBetSize := newLastBetSize, streetLastBetTo := newStreetLastBetTo,
                      totalLastBetTo := s.totalLastBetTo + newLastBetSize, lastBettor := s.pos,
                      pos := (s.pos + 1) % 2, checkOrCallEndsStreet := true), e)
      else Stop(ParseError("Unexpected char"))
  }

  /** The loop run from index `i` in state `s` to its result. */
  function Run(action: string, s: ParseState, i: nat): ParseResult
    requires i <= |action|
    decreases |action| - i
  {
    if i == |action| then Parsed(s.Output())
    else
      match Step(action, s, i)
      case Continue(s', next) => Run(action, s', next)
      case Stop(r) => r
  }

  /** The run from `i` is one step followed by the run from where that step leaves off. */
  lemma RunOneStep(action: string, s: ParseState, i: nat)
    requires i < |action|
    ensures Step(action, s, i).Stop? ==> Run(action, s, i) == Step(action, s, i).result
    ensures Step(action, s, i).Continue? ==>
              Run(action, s, i) == Run(action, Step(action, s, i).state, Step(action, s, i).next)
  {
  }

  /** What `parse_action` returns for `action`. */
  function Parse(action: string): ParseResult
  {
    if |action| == 0 then Parsed(INITIAL.Output()) else Run(action, INITIAL, 0)
  }

  /** `parse_action`: the character loop, one pass per action letter. */
  method ParseAction(action: string) returns (result: ParseResult)
    ensures result == Parse(action)
  {
    var s := INITIAL;
    if |action| == 0 {
      return Parsed(s.Output());
    }
    var i := 0;
    while i < |action|
      invariant 0 <= i <= |action|
      invariant Run(action, s, i) == Parse(action)
      decreases |action| - i
    {
      var o := ParseChar(action, s, i);
      RunOneStep(action, s, i);
      match o
      case Stop(r) =>
        return r;
      case Continue(next, j) =>
        s, i := next, j;
    }
    return Parsed(s.Output());
  }

  /**
   * One pass of the loop of `parse_action`: the character at `i`, with the inner scans
   * for the trailing slashes of an all-in call and for the digits of a bet.
   */
  method ParseChar(action: string, s: ParseState, i: nat) returns (o: Outcome)
    requires i < |action|
    ensures o == Step(action, s, i)
  {
    var sz := |action|;
    if s.st >= NUM_STREETS {
      return Stop(ParseError("Unexpected error"));
    }
    var c := action[i];
    var n := i + 1;
    if c == 'k' {
      if s.lastBetSize > 0 {
        return Stop(ParseError("Illegal check"));
      }
      if s.checkOrCallEndsStreet {
        o := EndStreetAt(action, s, n, EndStreet(s));
      } else {
        o := Continue(s.(pos := (s.pos + 1) % 2, checkOrCallEndsStreet := true), n);
      }
    } else if c == 'c' {
      if s.lastBetSize == 0 {
        return Stop(ParseError("Illegal call"));
      }
      if s.totalLastBetTo == STACK_SIZE {
        var k := n;
        while k < sz
          invariant n <= k <= sz
          invariant forall m :: n <= m < k ==> action[m] == '/'
          decreases sz - k
        {
          if action[k] != '/' {
            assert action[n..][k - n] != '/';
            return Stop(ParseError("Extra chars"));
          }
          k := k + 1;
        }
        assert AllSlashes(action[n..]);
        return Stop(Parsed(s.(st := NUM_STREETS - 1, pos := -1, lastBetSize := 0).Output()));
      }
      if s.checkOrCallEndsStreet {
        o := EndStreetAt(action, s, n, EndStreet(s).(lastBetSize := 0, lastBettor := -1));
      } else {
        o := Continue(s.(pos := (s.pos + 1) % 2, checkOrCallEndsStreet := true, lastBetSize := 0, lastBettor := -1), n);
      }
    } else if c == 'f' {
      return Stop(Parsed(s.(pos := -1).Output()));
    } else if c == 'b' {
      var j := n;
      while n < sz && '0' <= action[n] <= '9'
        invariant j <= n <= sz
        invariant DigitRunEnd(action, n) == DigitRunEnd(action, j)
        decreases sz - n
      {
        n := n + 1;
      }
      if n == j {
        return Stop(ParseError("Missing bet size"));
      }
      var newStreetLastBetTo := Decimal.DigitsValue(action[j..n]);
      var newLastBetSize := newStreetLastBetTo - s.streetLastBetTo;
      o := Continue(s.(lastBetSize := newLastBetSize, streetLastBetTo := newStreetLastBetTo,
                       totalLastBetTo := s.totalLastBetTo + newLastBetSize, lastBettor := s.pos,
                       pos := (s.pos + 1) % 2, checkOrCallEndsStreet := true), n);
    } else {
      return Stop(ParseError("Unexpected char"));
    }
  }

  /** After a street-ending check or call: skip the slash before the next street, or report it missing. */
  method EndStreetAt(action: string, s: ParseState, i: nat, next: ParseState) returns (o: Outcome)
    requires i <= |action|
    ensures o == AfterStreetEnd(action, s, i, next)
  {
    var n := i;
    if s.st < NUM_STREETS - 1 && n < |action| {
      if action[n] != '/' {
        return Stop(ParseError("Missing slash"));
      }
      n := n + 1;
    }
    return Continue(next, n);
  }

  /**
   * The state ranges the parser keeps: a street 0..3, a position -1, 0 or 1, and a
   * street level between zero and the total.
   */
  predicate InRange(s: ParseState)
  {
    0 <= s.st <= NUM_STREETS - 1 && -1 <= s.pos <= 1 && 0 <= s.streetLastBetTo <= s.totalLastBetTo
  }

  predicate OutputInRange(a: ParsedAction)
  {
    0 <= a.st <= NUM_STREETS - 1 && -1 <= a.pos <= 1 && 0 <= a.streetLastBetTo <= a.totalLastBetTo
  }

  lemma StepInRange(action: string, s: ParseState, i: nat)
    requires i < |action| && InRange(s)
    ensures Step(action, s, i).Continue? ==> InRange(Step(action, s, i).state)
    ensures Step(action, s, i).Stop? && Step(action, s, i).result.Parsed? ==>
              OutputInRange(Step(action, s, i).result.action)
  {
  }

  lemma {:induction false} RunInRange(action: string, s: ParseState, i: nat)
    requires i <= |action| && InRange(s)
    ensures Run(action, s, i).Parsed? ==> OutputInRange(Run(action, s, i).action)
    decreases |action| - i
  {
    if i < |action| {
      StepInRange(action, s, i);
      match Step(action, s, i)
      case Continue(s', next) => RunInRange(action, s', next);
      case Stop(r) =>
    }
  }

  /**
   * Every successful parse reports a street between 0 and 3 (so the "Unexpected error"
   * for a street past the last is never returned), a position of -1, 0 or 1, and a
   * street level between zero and the total.
   */
  lemma ParseInRange(action: string)
    ensures Parse(action).Parsed? ==> OutputInRange(Parse(action).action)
    ensures Parse(action) != ParseError("Unexpected error")
  {
    RunInRange(action, INITIAL, 0);
    RunNeverUnexpected(action, INITIAL, 0);
  }

  lemma {:induction false} RunNeverUnexpected(action: string, s: ParseState, i: nat)
    requires i <= |action| && InRange(s)
    ensures Run(action, s, i) != ParseError("Unexpected error")
    decreases |action| - i
  {
    if i < |action| {
      StepInRange(action, s, i);
      match Step(action, s, i)
      case Continue(s', next) => RunNeverUnexpected(action, s', next);
      case Stop(r) =>
    }
  }

  /** The empty string stands for the start of the hand. */
  lemma EmptyActionIsInitial()
    ensures Parse("") == Parsed(ParsedAction(0, 1, 100, 100, 50, 0))
  {
  }

  /**
   * A check facing a bet and a call facing none are refused; a fold returns at once
   * with position -1 and everything else as it stood.
   */
  lemma IllegalChecksCallsAndFold(action: string, s: ParseState, i: nat)
    requires i < |action| && InRange(s)
    ensures action[i] == 'k' && s.lastBetSize > 0 ==> Step(action, s, i) == Stop(ParseError("Illegal check"))
    ensures action[i] == 'c' && s.lastBetSize == 0 ==> Step(action, s, i) == Stop(ParseError("Illegal call"))
    ensures action[i] == 'f' ==>
              Step(action, s, i) == Stop(Parsed(ParsedAction(s.st, -1, s.streetLastBetTo, s.totalLastBetTo,
                                                             s.lastBetSize, s.lastBettor)))
    ensures action[i] !in "kcfb" ==> Step(action, s, i) == Stop(ParseError("Unexpected char"))
  {
  }

  /**
   * A bet written as `b` and the decimal text of a level `n`, followed by a non-digit
   * or the end, sets the street level to `n`, the bet size to the raise over the old
   * level, adds it to the total, records the bettor and passes the turn.
   */
  lemma BetRoundTrip(prefix: string, n: nat, rest: string, s: ParseState)
    requires InRange(s)
    requires |rest| == 0 || !Decimal.IsDigit(rest[0])
    ensures var action := prefix + "b" + Decimal.NatToString(n) + rest;
            Step(action, s, |prefix|) ==
            Continue(s.(lastBetSize := n - s.streetLastBetTo, streetLastBetTo := n,
                        totalLastBetTo := s.totalLastBetTo + (n - s.streetLastBetTo), lastBettor := s.pos,
                        pos := (s.pos + 1) % 2, checkOrCallEndsStreet := true),
                     |prefix| + 1 + |Decimal.NatToString(n)|)
  {
    var action := prefix + "b" + Decimal.NatToString(n) + rest;
    BetDigits(prefix, n, rest);
    assert action[|prefix|] == 'b';
  }

  /** The digits after the `b` run to the end of the written level and read back as `n`. */
  lemma BetDigits(prefix: string, n: nat, rest: string)
    requires |rest| == 0 || !Decimal.IsDigit(rest[0])
    ensures var action := prefix + "b" + Decimal.NatToString(n) + rest;
            var i := |prefix| + 1;
            var e := i + |Decimal.NatToString(n)|;
            e <= |action| && DigitRunEnd(action, i) == e && e != i && Decimal.DigitsValue(action[i..e]) == n
  {
    var digits := Decimal.NatToString(n);
    var action := prefix + "b" + digits + rest;
    var i := |prefix| + 1;
    var e := i + |digits|;
    DigitRunEndOver(action, i, e);
    assert action[i..e] == digits;
    Decimal.DigitsValueOfNatToString(n);
  }

  /** The digit run from `i` ends at `e` when `i..e` are digits and `e` is not. */
  lemma {:induction false} DigitRunEndOver(action: string, i: nat, e: nat)
    requires i <= e <= |action|
    requires forall k :: i <= k < e ==> Decimal.IsDigit(action[k])
    requires e == |action| || !Decimal.IsDigit(action[e])
    ensures DigitRunEnd(action, i) == e
    decreases e - i
  {
    if i < e {
      DigitRunEndOver(action, i + 1, e);
    }
  }

  /**
   * The second check or call of a street ends it: before the river it advances the
   * street with the big blind to act and a zero street level, and a following
   * character other than `/` is a missing slash; on the river it sets position -1.
   */
  lemma StreetEnds(action: string, s: ParseState, i: nat)
    requires i < |action| && InRange(s)
    requires action[i] == 'k' || (action[i] == 'c' && s.totalLastBetTo != STACK_SIZE)
    requires s.checkOrCallEndsStreet
    requires action[i] == 'k' ==> s.lastBetSize <= 0
    requires action[i] == 'c' ==> s.lastBetSize != 0
    ensures s.st < NUM_STREETS - 1 && i + 1 < |action| && action[i + 1] != '/' ==>
              Step(action, s, i) == Stop(ParseError("Missing slash"))
    ensures s.st < NUM_STREETS - 1 && (i + 1 == |action| || action[i + 1] == '/') ==>
              Step(action, s, i).Continue? &&
              Step(action, s, i).state.st == s.st + 1 && Step(action, s, i).state.pos == 0 &&
              Step(action, s, i).state.streetLastBetTo == 0
    ensures s.st == NUM_STREETS - 1 ==>
              Step(action, s, i).Continue? && Step(action, s, i).state.st == s.st &&
              Step(action, s, i).state.pos == -1 && Step(action, s, i).state.streetLastBetTo == 0
  {
  }

  /**
   * Calling an all-in (a total of 20000) ends the parse on the river with position -1
   * and no bet to face; anything after it other than slashes is refused.
   */
  lemma AllInCall(action: string, s: ParseState, i: nat)
    requires i < |action| && InRange(s)
    requires action[i] == 'c' && s.lastBetSize != 0 && s.totalLastBetTo == STACK_SIZE
    ensures AllSlashes(action[i + 1..]) ==>
              Step(action, s, i) == Stop(Parsed(ParsedAction(NUM_STREETS - 1, -1, s.streetLastBetTo,
                                                             STACK_SIZE, 0, s.lastBettor)))
    ensures !AllSlashes(action[i + 1..]) ==> Step(action, s, i) == Stop(ParseError("Extra chars"))
  {
  }

  /** A preflop raise to 300 and a call close the preflop and open the flop. */
  lemma RaiseCallExample()
    ensures Parse("b300c/") == Parsed(ParsedAction(1, 0, 0, 300, 0, -1))
  {
    var a := "b300c/";
    DigitRunEndOver(a, 1, 4);
    assert a[1..4] == "300";
    assert Decimal.DigitsValue("300") == 300 by {
      assert "300"[..2] == "30" && "30"[..1] == "3" && "3"[..0] == "";
    }
    var s1 := INITIAL.(lastBetSize := 200, streetLastBetTo := 300, totalLastBetTo := 300, lastBettor := 1,
                       pos := 0, checkOrCallEndsStreet := true);
    assert Step(a, INITIAL, 0) == Continue(s1, 4);
    var s2 := ParseState(1, 0, 0, 300, 0, -1, false);
    assert Step(a, s1, 4) == Continue(s2, 6);
  }
}
