/**
 * Bounded first-in first-out storage, as used by the replay buffers of both trainers.
 */
module Fifo {
  /** The newest `n` items of `s` (all of `s` when it is shorter). */
  function Newest<T>(s: seq<T>, n: nat): (r: seq<T>)
    ensures |r| == if |s| < n then |s| else n
    ensures r == s[|s| - |r|..]
  {
    if |s| <= n then s else s[|s| - n..]
  }

  /** Keeping the newest `n` after each append is keeping the newest `n` of the whole stream. */
  lemma {:induction false} NewestAppend<T>(stream: seq<T>, item: T, n: nat)
    ensures Newest(Newest(stream, n) + [item], n) == Newest(stream + [item], n)
  {
    var kept := Newest(stream, n);
    var whole := stream + [item];
    assert kept + [item] == whole[|stream| - |kept|..];
  }
}
