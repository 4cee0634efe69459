/** The per-side intake queues (digitQueue): characters wait here between
    arriving on a feed and being spawned by the frame loop. */
module Intake {
  import opened BodyList

  /** How many characters each side may spawn per frame (MAX_PER_FRAME). */
  const MaxPerFrame: nat := 3

  /** The characters one frame takes from the front of a queue. */
  function Popped(q: seq<char>): (r: seq<char>)
    ensures |r| == Min(|q|, MaxPerFrame)
  {
    q[..Min(|q|, MaxPerFrame)]
  }

  /** What one frame leaves in a queue: the untouched suffix after the popped
      characters, so the queue shrinks by exactly min(length, MaxPerFrame). */
  function Drain(q: seq<char>): (r: seq<char>)
    ensures |r| == |q| - Min(|q|, MaxPerFrame)
    ensures Popped(q) + r == q
  {
    q[Min(|q|, MaxPerFrame)..]
  }

  /** Shared by the frame loop, which pops, and the connections, which push. */
  class DigitQueue {
    var left: seq<char>
    var right: seq<char>

    constructor ()
      ensures left == [] && right == []
    {
      left, right := [], [];
    }

    function Of(side: Side): seq<char>
      reads this
    {
      if side == Left then left else right
    }

    /** digitQueue[side].push(ch) */
    method Push(side: Side, ch: char)
      modifies this
      ensures Of(side) == old(Of(side)) + [ch]
      ensures Of(Other(side)) == old(Of(Other(side)))
    {
      if side == Left { left := left + [ch]; } else { right := right + [ch]; }
    }

    /** digitQueue[side].shift(), only ever called on a non-empty queue. */
    method Shift(side: Side) returns (ch: char)
      requires Of(side) != []
      modifies this
      ensures ch == old(Of(side))[0]
      ensures Of(side) == old(Of(side))[1..]
      ensures Of(Other(side)) == old(Of(Other(side)))
    {
      if side == Left {
        ch := left[0];
        left := left[1..];
      } else {
        ch := right[0];
        right := right[1..];
      }
    }
  }
}
