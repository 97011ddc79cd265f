/**
 * The value network's input for Leduc (`get_features`): both ranges, a one-hot
 * board block, the scaled pot and a one-hot encoding of the last ten actions.
 */
module LeducFeatures {
  import opened Options

  const BOARD_SLOTS: nat := 4
  const MAX_LEN: nat := 10
  const HISTORY_SLOTS: nat := 30

  /** Torch indexing: an index in `[-n, n)` counts from the end when negative. */
  function WrapIndex(idx: int, n: nat): (j: nat)
    requires -(n as int) <= idx < n
    ensures j < n
    ensures idx >= 0 ==> j == idx
  {
    if idx >= 0 then idx else idx + n
  }

  /** The slot set in the board block: 0 without a board, `board_rank + 1` otherwise. */
  function BoardSlot(boardRank: Option<int>): (j: nat)
    requires boardRank.Some? ==> -5 <= boardRank.value <= 2
    ensures j < BOARD_SLOTS
    ensures boardRank.Some? && 0 <= boardRank.value <= 2 ==> j == boardRank.value + 1
    ensures boardRank.None? ==> j == 0
  {
    if boardRank.None? then 0 else WrapIndex(boardRank.value + 1, BOARD_SLOTS)
  }

  /** `history[-MAX_LEN:]` */
  function Window(history: seq<int>): (w: seq<int>)
    ensures |w| <= MAX_LEN
    ensures |history| <= MAX_LEN ==> w == history
    ensures |history| > MAX_LEN ==> w == history[|history| - MAX_LEN..]
  {
    if |history| <= MAX_LEN then history else history[|history| - MAX_LEN..]
  }

  /** The history slot index `i * 3 + a` may be written without an IndexError. */
  predicate HistoryIndexable(history: seq<int>)
  {
    var w := Window(history);
    forall i :: 0 <= i < |w| ==> -(HISTORY_SLOTS as int) <= i * 3 + w[i] < HISTORY_SLOTS
  }

  function HistorySlot(i: int, a: int): nat
    requires -(HISTORY_SLOTS as int) <= i * 3 + a < HISTORY_SLOTS
  {
    WrapIndex(i * 3 + a, HISTORY_SLOTS)
  }

  /** Whether one of the first `k` window entries writes slot `j`. */
  predicate WrittenBy(w: seq<int>, k: nat, j: int)
    requires k <= |w|
    requires forall i :: 0 <= i < |w| ==> -(HISTORY_SLOTS as int) <= i * 3 + w[i] < HISTORY_SLOTS
  {
    exists i :: 0 <= i < k && HistorySlot(i, w[i]) == j
  }

  function OneHot(n: nat, j: nat): (v: seq<real>)
    requires j < n
    ensures |v| == n && v[j] == 1.0
    ensures forall i :: 0 <= i < n && i != j ==> v[i] == 0.0
  {
    seq(n, i => if i == j then 1.0 else 0.0)
  }

  /** The declarative history block: a slot is 1 exactly when a window entry wrote it. */
  function HistoryBlock(history: seq<int>): (v: seq<real>)
    requires HistoryIndexable(history)
    ensures |v| == HISTORY_SLOTS
  {
    var w := Window(history);
    seq(HISTORY_SLOTS, j => if WrittenBy(w, |w|, j) then 1.0 else 0.0)
  }

  /** The feature vector, block by block. */
  function Features(r0: seq<real>, r1: seq<real>, boardRank: Option<int>, history: seq<int>, pot: real): (f: seq<real>)
    requires boardRank.Some? ==> -5 <= boardRank.value <= 2
    requires HistoryIndexable(history)
    ensures |f| == |r0| + |r1| + BOARD_SLOTS + 1 + HISTORY_SLOTS
  {
    r0 + r1 + OneHot(BOARD_SLOTS, BoardSlot(boardRank)) + [pot / 20.0] + HistoryBlock(history)
  }

  /** `get_features`: zero blocks filled by index writes, then concatenated. */
  method GetFeatures(r0: seq<real>, r1: seq<real>, boardRank: Option<int>, history: seq<int>, pot: real)
    returns (f: seq<real>)
    requires boardRank.Some? ==> -5 <= boardRank.value <= 2
    requires HistoryIndexable(history)
    ensures f == Features(r0, r1, boardRank, history, pot)
  {
    var boardVec := new real[BOARD_SLOTS](_ => 0.0);
    if boardRank.None? {
      boardVec[0] := 1.0;
    } else {
      boardVec[WrapIndex(boardRank.value + 1, BOARD_SLOTS)] := 1.0;
    }
    var boardBlock := boardVec[..];
    assert boardBlock == OneHot(BOARD_SLOTS, BoardSlot(boardRank));

    var w := Window(history);
    var histVec := new real[HISTORY_SLOTS](_ => 0.0);
    for i := 0 to |w|
      invariant forall j :: 0 <= j < HISTORY_SLOTS ==>
                  histVec[j] == if WrittenBy(w, i, j) then 1.0 else 0.0
    {
      histVec[HistorySlot(i, w[i])] := 1.0;
    }
    assert histVec[..] == HistoryBlock(history);
    f := r0 + r1 + boardBlock + [pot / 20.0] + histVec[..];
  }

  /** Six-card ranges give the 47 inputs the network expects. */
  lemma FeatureLength(r0: seq<real>, r1: seq<real>, boardRank: Option<int>, history: seq<int>, pot: real)
    requires |r0| == 6 && |r1| == 6
    requires boardRank.Some? ==> -5 <= boardRank.value <= 2
    requires HistoryIndexable(history)
    ensures |Features(r0, r1, boardRank, history, pot)| == 47
  {
  }

  /** The ranges come first, unchanged, followed by the board block and the pot. */
  lemma FeatureBlocks(r0: seq<real>, r1: seq<real>, boardRank: Option<int>, history: seq<int>, pot: real)
    requires boardRank.Some? ==> -5 <= boardRank.value <= 2
    requires HistoryIndexable(history)
    ensures var f := Features(r0, r1, boardRank, history, pot);
            var n := |r0| + |r1|;
            f[..|r0|] == r0 && f[|r0|..n] == r1 &&
            (forall j :: n <= j < n + BOARD_SLOTS ==> f[j] == if j - n == BoardSlot(boardRank) then 1.0 else 0.0) &&
            f[n + BOARD_SLOTS] == pot / 20.0
  {
    var f := Features(r0, r1, boardRank, history, pot);
    var n := |r0| + |r1|;
    assert f[..|r0|] == r0;
    assert f[|r0|..n] == r1;
  }

  /**
   * For actions 0..2 the history block can be decoded: slot `3 i + a` is set exactly
   * when the `i`-th of the last ten actions is `a`, and slots past the window stay 0.
   */
  lemma HistoryBlockDecodes(history: seq<int>, i: int, a: int)
    requires forall k :: 0 <= k < |history| ==> 0 <= history[k] <= 2
    requires 0 <= i < MAX_LEN && 0 <= a <= 2
    ensures HistoryIndexable(history)
    ensures var w := Window(history);
            HistoryBlock(history)[3 * i + a] == if i < |w| && w[i] == a then 1.0 else 0.0
  {
    var w := Window(history);
    assert forall k :: 0 <= k < |w| ==> 0 <= w[k] <= 2 by {
      forall k | 0 <= k < |w|
        ensures 0 <= w[k] <= 2
      {
        if |history| > MAX_LEN {
          assert w[k] == history[|history| - MAX_LEN + k];
        }
      }
    }
    if WrittenBy(w, |w|, 3 * i + a) {
      var k :| 0 <= k < |w| && HistorySlot(k, w[k]) == 3 * i + a;
      assert k * 3 + w[k] == 3 * i + a;
      assert k == i && w[k] == a;
    }
  }
}
