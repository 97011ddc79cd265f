/**
 * The Slumbot ReBeL trainer's replay buffer (`slumbot/rebel/train.py`): a list that
 * drops its oldest entry once it grows past 1000, whatever capacity it was given.
 */
module SlumbotTrain {
  import Fifo

  /** The bound `push` enforces; the constructor's `capacity` argument is never stored. */
  const BOUND: nat := 1000

  /** One `(features, targets)` pair. */
  datatype Sample = Sample(features: seq<real>, targets: seq<real>)

  class ReplayBuffer {
    var data: seq<Sample>

    ghost predicate Valid()
      reads this
    {
      |data| <= BOUND
    }

    /** `ReplayBuffer(capacity)`: an empty list; `capacity` is accepted and ignored. */
    constructor(capacity: int)
      ensures Valid() && data == []
    {
      data := [];
    }

    /** `push`: append, then drop element 0 if the list is longer than 1000. */
    method Push(features: seq<real>, targets: seq<real>)
      requires Valid()
      modifies this
      ensures Valid()
      ensures data == Fifo.Newest(old(data) + [Sample(features, targets)], BOUND)
      ensures data[|data| - 1] == Sample(features, targets)
      ensures data[..|data| - 1] == (if |old(data)| < BOUND then old(data) else old(data)[1..])
    {
      data := data + [Sample(features, targets)];
      if |data| > BOUND {
        data := data[1..];
      }
    }

    /** `__len__`: the list's length, never above 1000. */
    function Len(): (n: nat)
      reads this
      ensures n == |data|
      ensures Valid() ==> n <= BOUND
    {
      |data|
    }
  }

  /**
   * Pushing a stream one item at a time into an empty buffer leaves its newest 1000
   * items, in arrival order.
   */
  function Filled(stream: seq<Sample>): (data: seq<Sample>)
    ensures |data| <= BOUND
  {
    if stream == [] then []
    else
      var prev := Filled(stream[..|stream| - 1]);
      var appended := prev + [stream[|stream| - 1]];
      if |appended| > BOUND then appended[1..] else appended
  }

  /** `Filled` keeps exactly the newest `BOUND` items of the stream. */
  lemma {:induction false} FilledIsNewest(stream: seq<Sample>)
    ensures Filled(stream) == Fifo.Newest(stream, BOUND)
  {
    if stream != [] {
      var init := stream[..|stream| - 1];
      var item := stream[|stream| - 1];
      FilledIsNewest(init);
      assert stream == init + [item];
      Fifo.NewestAppend(init, item, BOUND);
    }
  }
}
