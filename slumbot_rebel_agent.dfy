/**
 * The string handling of Slumbot's `ReBeLAgent`: the action history read from the
 * action string, the opponent-belief shift after the opponent's last action, and the
 * mapping from the searched action index to the command sent.
 */
module SlumbotRebelAgent {
  import opened Vectors
  import opened Options
  import Decimal
  import SlumbotClient
  import SlumbotAgent

  /** The history code of a letter: fold 0, call or check 1, bet 2; other characters have none. */
  function ActionCode(ch: char): Option<int>
  {
    if ch == 'f' then Some(0)
    else if ch == 'c' || ch == 'k' then Some(1)
    else if ch == 'b' then Some(2)
    else None
  }

  /** The codes of the letters of `s`, in order. */
  function History(s: string): seq<int>
  {
    if |s| == 0 then []
    else
      History(s[..|s| - 1]) + (match ActionCode(s[|s| - 1]) case Some(a) => [a] case None => [])
  }

  predicate IsActionLetter(ch: char)
  {
    ch in "fckb"
  }

  /** The number of action letters in `s`. */
  function Letters(s: string): nat
  {
    if |s| == 0 then 0 else Letters(s[..|s| - 1]) + (if IsActionLetter(s[|s| - 1]) then 1 else 0)
  }

  /** One code per action letter, each 0, 1 or 2. */
  lemma {:induction false} HistoryShape(s: string)
    ensures |History(s)| == Letters(s)
    ensures forall i :: 0 <= i < |History(s)| ==> 0 <= History(s)[i] <= 2
  {
    if |s| > 0 {
      HistoryShape(s[..|s| - 1]);
    }
  }

  /** Reading two pieces one after the other gives the history of the whole. */
  lemma {:induction false} HistoryAppend(a: string, b: string)
    ensures History(a + b) == History(a) + History(b)
    decreases |b|
  {
    if |b| > 0 {
      assert (a + b)[..|a + b| - 1] == a + b[..|b| - 1];
      HistoryAppend(a, b[..|b| - 1]);
    } else {
      assert a + b == a;
    }
  }

  /** The index of the last action letter, if any. */
  function LastLetter(s: string): (k: Option<nat>)
    ensures k.Some? ==> k.value < |s| && IsActionLetter(s[k.value]) &&
                        forall j :: k.value < j < |s| ==> !IsActionLetter(s[j])
    ensures k.None? ==> forall j :: 0 <= j < |s| ==> !IsActionLetter(s[j])
  {
    if |s| == 0 then None
    else if IsActionLetter(s[|s| - 1]) then Some(|s| - 1)
    else LastLetter(s[..|s| - 1])
  }

  /** The ASCII digits of `s`, in order; every other character is skipped. */
  function DigitsOf(s: string): (d: string)
    ensures Decimal.AllDigits(d)
  {
    if |s| == 0 then "" else (if Decimal.IsDigit(s[0]) then [s[0]] else "") + DigitsOf(s[1..])
  }

  /** What the backward scan finds: the last action letter and the digits after it. */
  datatype Scan = Scan(last: Option<char>, numBuf: string)

  function ScanBack(s: string): Scan
  {
    match LastLetter(s)
    case Some(k) => Scan(Some(s[k]), DigitsOf(s[k + 1..]))
    case None => Scan(None, DigitsOf(s))
  }

  /**
   * The bet size read after a final `b`, else 0. The digits `ScanBack` collects always
   * convert; the inner test only keeps `DigitsValue` defined for any `Scan` value.
   */
  function BetSize(scan: Scan): nat
  {
    if scan.last == Some('b') && |scan.numBuf| > 0 then
      if Decimal.AllDigits(scan.numBuf) then Decimal.DigitsValue(scan.numBuf) else 0
    else 0
  }

  /** The weight given to hand strength after a bet of `betSize`: from 1/2 up to 1 at 5000 chips. */
  function StrengthWeight(betSize: nat): (w: real)
    ensures 0.5 <= w <= 1.0
  {
    var scale := if 1.0 <= betSize as real / 5000.0 then 1.0 else betSize as real / 5000.0;
    0.5 + scale * 0.5
  }

  /** The per-hand weights: after a positive bet a mix of a constant and the strength, else ones. */
  function Weights(strength: seq<real>, scan: Scan): (r: seq<real>)
    ensures |r| == |strength|
  {
    if scan.last == Some('b') && BetSize(scan) > 0 then
      var w := StrengthWeight(BetSize(scan));
      seq(|strength|, i requires 0 <= i < |strength| => 0.5 * (1.0 - w) + w * strength[i])
    else
      Fill(|strength|, 1.0)
  }

  /** The belief times the weights, divided by its total when that exceeds 1e-9. */
  function Reweighted(r1: seq<real>, weights: seq<real>): (r: seq<real>)
    requires |r1| == |weights|
    ensures |r| == |r1|
  {
    var r := Mul(r1, weights);
    if Sum(r) > 0.000000001 then DivideBy(r, Sum(r)) else r
  }

  /** `_update_opponent_belief` on a belief: unchanged for an empty string. */
  function UpdatedBelief(r1: seq<real>, strength: seq<real>, actionStr: string): (r: seq<real>)
    requires |r1| == |strength|
    ensures |r| == |r1|
  {
    if |actionStr| == 0 then r1 else Reweighted(r1, Weights(strength, ScanBack(actionStr)))
  }

  /** Rounded pot: twice the total bet level, at least the 150 of the blinds. */
  function Pot(totalLastBetTo: int): int
  {
    if 150 >= 2 * totalLastBetTo then 150 else 2 * totalLastBetTo
  }

  /** Each stack estimated as what is left of 20000, at least zero. */
  function Stack(totalLastBetTo: int): int
  {
    if 0 >= 20000 - totalLastBetTo then 0 else 20000 - totalLastBetTo
  }

  /** The all-in index 3 with strength below 0.7 becomes call (facing a bet) or pot raise. */
  function GuardedIndex(actionIdx: int, strength: real, facingBet: bool): int
  {
    if actionIdx == 3 && strength < 0.7 then (if facingBet then 1 else 2) else actionIdx
  }

  /** The street level of the pot-size raise, capped at the 20000 stack. */
  function PotRaiseTo(s: SlumbotClient.ParsedAction): int
  {
    var target := s.streetLastBetTo + SlumbotAgent.Max(300, SlumbotAgent.Max(s.lastBetSize * 3, Pot(s.totalLastBetTo)));
    if 20000 <= target then 20000 else target
  }

  /**
   * The command for the searched index: 0 checks or folds, 1 calls or checks, 2 raises
   * about the pot, 3 goes all-in with the estimated stack; any other index checks.
   */
  function Command(s: SlumbotClient.ParsedAction, actionIdx: int, strength: real): (command: string)
    ensures command in {"k", "f", "c"} || (|command| > 1 && command[0] == 'b')
  {
    var facingBet := s.lastBetSize > 0;
    var idx := GuardedIndex(actionIdx, strength, facingBet);
    if idx == 0 then (if s.lastBetSize == 0 then "k" else "f")
    else if idx == 1 then (if facingBet then "c" else "k")
    else if idx == 2 then "b" + Decimal.IntToString(PotRaiseTo(s))
    else if idx == 3 then "b" + Decimal.IntToString(Stack(s.totalLastBetTo))
    else "k"
  }

  const NUM_HANDS: nat := 1326

  class ReBeLAgent {
    var r0: seq<real>
    var r1: seq<real>
    /** The per-hand strength buckets of `reset_hand`, one per hand of the range. */
    const handStrength: seq<real>

    /** `__init__` and `reset_hand`: both beliefs uniform over the 1326 hands. */
    constructor(handStrength: seq<real>)
      requires |handStrength| == NUM_HANDS
      ensures this.handStrength == handStrength
      ensures r0 == Fill(NUM_HANDS, 1.0 / 1326.0) && r1 == Fill(NUM_HANDS, 1.0 / 1326.0)
      ensures |r1| == |handStrength|
    {
      this.handStrength := handStrength;
      r0 := Fill(NUM_HANDS, 1.0 / 1326.0);
      r1 := Fill(NUM_HANDS, 1.0 / 1326.0);
    }

    /** `_history_from_action_str`: the codes of the action letters, in order. */
    method HistoryFromActionStr(actionStr: string) returns (hist: seq<int>)
      ensures hist == History(actionStr)
    {
      hist := [];
      for i := 0 to |actionStr|
        invariant hist == History(actionStr[..i])
      {
        var ch := actionStr[i];
        assert actionStr[..i + 1][..i] == actionStr[..i];
        match ActionCode(ch) {
          case Some(a) => hist := hist + [a];
          case None =>
        }
      }
      assert actionStr[..|actionStr|] == actionStr;
    }

    /** The backward scan of `_update_opponent_belief`. */
    method ScanLastAction(actionStr: string) returns (last: Option<char>, numBuf: string)
      ensures Scan(last, numBuf) == ScanBack(actionStr)
    {
      last := None;
      numBuf := "";
      var i := |actionStr|;
      while i > 0
        invariant 0 <= i <= |actionStr|
        invariant forall j :: i <= j < |actionStr| ==> !IsActionLetter(actionStr[j])
        invariant numBuf == DigitsOf(actionStr[i..])
      {
        var ch := actionStr[i - 1];
        assert actionStr[i - 1..][1..] == actionStr[i..];
        if ch == '/' {
          i := i - 1;
          continue;
        }
        if Decimal.IsDigit(ch) {
          numBuf := [ch] + numBuf;
          i := i - 1;
          continue;
        }
        if ch in "bckf" {
          last := Some(ch);
          LastLetterAt(actionStr, i - 1);
          return;
        }
        i := i - 1;
      }
      NoLastLetter(actionStr);
    }

    /**
     * `_update_opponent_belief`: after a non-empty action string, the opponent belief is
     * reweighted by what the last action says and renormalized; the own belief and the
     * strengths are untouched.
     */
    method UpdateOpponentBelief(actionStr: string)
      requires |r1| == |handStrength|
      modifies this
      ensures r0 == old(r0)
      ensures r1 == UpdatedBelief(old(r1), handStrength, actionStr)
    {
      if |actionStr| == 0 {
        return;
      }
      var last, numBuf := ScanLastAction(actionStr);
      var weights := Weights(handStrength, Scan(last, numBuf));
      r1 := Reweighted(r1, weights);
    }

    /**
     * The part of `get_action` after the search: read the history, shift the opponent
     * belief, and turn the searched index into a command. The search result
     * `actionIdx` and the hand's `strength` are inputs.
     */
    method GetAction(s: SlumbotClient.ParsedAction, actionFull: string, actionIdx: int, strength: real)
      returns (history: seq<int>, command: string)
      requires |r1| == |handStrength|
      modifies this
      ensures history == History(actionFull)
      ensures r0 == old(r0) && r1 == UpdatedBelief(old(r1), handStrength, actionFull)
      ensures command == Command(s, actionIdx, strength)
    {
      history := HistoryFromActionStr(actionFull);
      UpdateOpponentBelief(actionFull);
      command := Command(s, actionIdx, strength);
    }
  }

  lemma {:induction false} LastLetterAt(s: string, k: nat)
    requires k < |s| && IsActionLetter(s[k])
    requires forall j :: k < j < |s| ==> !IsActionLetter(s[j])
    ensures LastLetter(s) == Some(k)
    decreases |s|
  {
    if k < |s| - 1 {
      LastLetterAt(s[..|s| - 1], k);
    }
  }

  lemma NoLastLetter(s: string)
    requires forall j :: 0 <= j < |s| ==> !IsActionLetter(s[j])
    ensures LastLetter(s) == None
  {
  }

  lemma {:induction false} DigitsOfDigits(s: string)
    requires Decimal.AllDigits(s)
    ensures DigitsOf(s) == s
  {
    if |s| > 0 {
      DigitsOfDigits(s[1..]);
    }
  }

  lemma {:induction false} DigitsOfSlashes(s: string)
    requires SlumbotClient.AllSlashes(s)
    ensures DigitsOf(s) == ""
  {
    if |s| > 0 {
      DigitsOfSlashes(s[1..]);
    }
  }

  lemma {:induction false} DigitsOfAppend(a: string, b: string)
    ensures DigitsOf(a + b) == DigitsOf(a) + DigitsOf(b)
  {
    if |a| > 0 {
      assert (a + b)[1..] == a[1..] + b;
      DigitsOfAppend(a[1..], b);
    } else {
      assert a + b == b;
    }
  }

  /**
   * When the action string ends with a bet written as `b` and its decimal level,
   * possibly followed by slashes, the scan finds the `b` and reads that level back.
   */
  lemma TrailingBetIsRead(prefix: string, n: nat, slashes: string)
    requires SlumbotClient.AllSlashes(slashes)
    ensures var scan := ScanBack(prefix + "b" + Decimal.NatToString(n) + slashes);
            scan.last == Some('b') && BetSize(scan) == n
  {
    var digits := Decimal.NatToString(n);
    var tail := digits + slashes;
    var s := prefix + "b" + tail;
    assert s == prefix + "b" + digits + slashes;
    var k := |prefix|;
    assert s[k] == 'b';
    NoLettersIn(digits, slashes);
    forall j | k < j < |s|
      ensures !IsActionLetter(s[j])
    {
      assert s[j] == tail[j - k - 1];
    }
    LastLetterAt(s, k);
    assert s[k + 1..] == tail;
    DigitsOfAppend(digits, slashes);
    DigitsOfDigits(digits);
    DigitsOfSlashes(slashes);
    assert DigitsOf(tail) == digits;
    assert ScanBack(s) == Scan(Some('b'), digits);
    Decimal.DigitsValueOfNatToString(n);
  }

  lemma NoLettersIn(digits: string, slashes: string)
    requires Decimal.AllDigits(digits) && SlumbotClient.AllSlashes(slashes)
    ensures forall j :: 0 <= j < |digits + slashes| ==> !IsActionLetter((digits + slashes)[j])
  {
    forall j | 0 <= j < |digits + slashes|
      ensures !IsActionLetter((digits + slashes)[j])
    {
      if j < |digits| {
        assert Decimal.IsDigit(digits[j]);
      } else {
        assert slashes[j - |digits|] == '/';
      }
    }
  }

  /** A mix `0.5 * (1 - w) + w * s` with `w` in [0, 1] lies between 1/2 and `s`. */
  lemma MixBetween(w: real, s: real)
    requires 0.0 <= w <= 1.0
    ensures var x := 0.5 * (1.0 - w) + w * s;
            (s <= 0.5 ==> s <= x <= 0.5) && (0.5 <= s ==> 0.5 <= x <= s)
  {
    var x := 0.5 * (1.0 - w) + w * s;
    assert x == 0.5 + w * (s - 0.5);
    assert s - x == (1.0 - w) * (s - 0.5);
    if s <= 0.5 {
      MulMonotone(w, s - 0.5, 0.0);
      MulMonotone(1.0 - w, s - 0.5, 0.0);
    } else {
      MulMonotone(w, 0.0, s - 0.5);
      MulMonotone(1.0 - w, 0.0, s - 0.5);
    }
  }

  /**
   * After a check, a call, a fold or no letter at all the weights are all ones, so
   * the belief is only renormalized; after a positive bet every weight lies between
   * 1/2 and the hand's strength, and stronger hands weigh more.
   */
  lemma WeightsShape(strength: seq<real>, scan: Scan)
    ensures !(scan.last == Some('b') && BetSize(scan) > 0) ==> Weights(strength, scan) == Fill(|strength|, 1.0)
    ensures scan.last == Some('b') && BetSize(scan) > 0 ==>
              forall i, j :: 0 <= i < |strength| && 0 <= j < |strength| && strength[i] <= strength[j] ==>
                Weights(strength, scan)[i] <= Weights(strength, scan)[j]
    ensures scan.last == Some('b') && BetSize(scan) > 0 ==>
              forall i :: 0 <= i < |strength| ==>
                (strength[i] <= 0.5 ==> strength[i] <= Weights(strength, scan)[i] <= 0.5) &&
                (0.5 <= strength[i] ==> 0.5 <= Weights(strength, scan)[i] <= strength[i])
    ensures forall i :: 0 <= i < |strength| && 0.0 <= strength[i] ==> Weights(strength, scan)[i] >= 0.0
  {
    if scan.last == Some('b') && BetSize(scan) > 0 {
      BetWeightsMonotone(strength, scan);
      BetWeightsBetween(strength, scan);
    }
  }

  lemma BetWeightsMonotone(strength: seq<real>, scan: Scan)
    requires scan.last == Some('b') && BetSize(scan) > 0
    ensures forall i, j :: 0 <= i < |strength| && 0 <= j < |strength| && strength[i] <= strength[j] ==>
              Weights(strength, scan)[i] <= Weights(strength, scan)[j]
  {
    var w := StrengthWeight(BetSize(scan));
    var ws := Weights(strength, scan);
    forall i, j | 0 <= i < |strength| && 0 <= j < |strength| && strength[i] <= strength[j]
      ensures ws[i] <= ws[j]
    {
      assert ws[i] == 0.5 * (1.0 - w) + w * strength[i];
      assert ws[j] == 0.5 * (1.0 - w) + w * strength[j];
      MulMonotone(w, strength[i], strength[j]);
    }
  }

  lemma BetWeightsBetween(strength: seq<real>, scan: Scan)
    requires scan.last == Some('b') && BetSize(scan) > 0
    ensures forall i :: 0 <= i < |strength| ==>
              (strength[i] <= 0.5 ==> strength[i] <= Weights(strength, scan)[i] <= 0.5) &&
              (0.5 <= strength[i] ==> 0.5 <= Weights(strength, scan)[i] <= strength[i])
  {
    var w := StrengthWeight(BetSize(scan));
    var ws := Weights(strength, scan);
    forall i | 0 <= i < |strength|
      ensures (strength[i] <= 0.5 ==> strength[i] <= ws[i] <= 0.5) &&
              (0.5 <= strength[i] ==> 0.5 <= ws[i] <= strength[i])
    {
      assert ws[i] == 0.5 * (1.0 - w) + w * strength[i];
      MixBetween(w, strength[i]);
    }
  }


  /**
   * The updated belief totals one whenever the reweighted total exceeds 1e-9, and
   * stays non-negative when the belief and the strengths are.
   */
  lemma UpdatedBeliefIsDistribution(r1: seq<real>, strength: seq<real>, actionStr: string)
    requires |r1| == |strength| && |actionStr| > 0
    requires NonNegative(r1) && NonNegative(strength)
    requires Sum(Mul(r1, Weights(strength, ScanBack(actionStr)))) > 0.000000001
    ensures IsDistribution(UpdatedBelief(r1, strength, actionStr))
  {
    var weights := Weights(strength, ScanBack(actionStr));
    assert NonNegative(weights) by {
      WeightsShape(strength, ScanBack(actionStr));
    }
    MulNonNegative(r1, weights);
    NormalizedIsDistribution(Mul(r1, weights));
  }

  /**
   * With a non-negative bet to face, the check, fold and call commands of the indices
   * 0..3 are letters the random agent would also offer (any other index checks, even
   * facing a bet); the pot raise goes at least a minimum raise above
   * the street level unless capped at the stack, and an all-in is only sent with
   * strength 0.7 or more.
   */
  lemma CommandsAreSensible(s: SlumbotClient.ParsedAction, actionIdx: int, strength: real)
    requires s.lastBetSize >= 0
    ensures var c := Command(s, actionIdx, strength);
            0 <= actionIdx <= 3 && |c| == 1 ==> c[0] in SlumbotAgent.ValidActions(s)
    ensures !(0 <= actionIdx <= 3) ==> Command(s, actionIdx, strength) == "k"
    ensures PotRaiseTo(s) == 20000 || PotRaiseTo(s) >= s.streetLastBetTo + SlumbotAgent.MinRaise(s)
    ensures PotRaiseTo(s) <= 20000
    ensures actionIdx == 3 && strength < 0.7 ==>
              Command(s, actionIdx, strength) == Command(s, if s.lastBetSize > 0 then 1 else 2, strength)
  {
  }

  /** The pot-raise command is read back by the parser as a bet to its level. */
  lemma PotRaiseParses(prefix: string, ps: SlumbotClient.ParseState, rest: string)
    requires SlumbotClient.InRange(ps)
    requires |rest| == 0 || !Decimal.IsDigit(rest[0])
    ensures var level := PotRaiseTo(ps.Output());
            var action := prefix + "b" + Decimal.IntToString(level) + rest;
            SlumbotClient.Step(action, ps, |prefix|).Continue? &&
            SlumbotClient.Step(action, ps, |prefix|).state.streetLastBetTo == level
  {
    var level := PotRaiseTo(ps.Output());
    assert level >= 0;
    SlumbotClient.BetRoundTrip(prefix, level, rest, ps);
  }
}
