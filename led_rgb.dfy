/**
 * The RGB LED task: it drives its three colour pins low, then endlessly
 * lights the current colour, waits 500 ms, turns it off and moves to the
 * next colour (red, green, blue, red, ...). Pin levels are booleans
 * (`true` is high, lit); waits are returned as millisecond counts.
 */
module LedRgb {

  /** The wait with the current colour lit. */
  const ColorDelayMs: nat := 500

  /** The values `current_color_index` takes: an index into the three colour pins. */
  type ColorIndex = i: int | 0 <= i < 3

  /** The increment and wrap at the end of an iteration: 0 to 1 to 2 to 0. */
  function Next(i: ColorIndex): (j: ColorIndex)
    ensures j == (i + 1) % 3
  {
    if i + 1 >= 3 then 0 else i + 1
  }

  /** The colour index after `n` iterations from `start`: `n` steps further round the cycle of three. */
  function IndexAfter(start: ColorIndex, n: nat): (i: ColorIndex)
    ensures i == (start + n) % 3
    decreases n
  {
    if n == 0 then start else Next(IndexAfter(start, n - 1))
  }

  /** Three iterations bring the colour index back to where it was. */
  lemma CycleOfThree(start: ColorIndex, n: nat)
    ensures IndexAfter(start, n + 3) == IndexAfter(start, n)
    ensures Next(Next(Next(start))) == start
  {
  }

  /** All three colour pins low. */
  function AllOff(): (p: seq<bool>)
  {
    [false, false, false]
  }

  /** At most one of the pins is high. */
  predicate AtMostOneOn(p: seq<bool>)
  {
    forall j, k :: 0 <= j < |p| && 0 <= k < |p| && p[j] && p[k] ==> j == k
  }

  /** The pin levels with exactly the pin of colour `i` lit: that pin is on and no other is. */
  function Lit(i: ColorIndex): (p: seq<bool>)
    ensures |p| == 3 && p[i] && AtMostOneOn(p)
  {
    seq(3, k => k == i)
  }

  /**
   * The patterns shown by `n` iterations from colour `start`: iteration `j`
   * lights only the colour `j` steps on from the start.
   */
  function Shown(start: ColorIndex, n: nat): (p: seq<seq<bool>>)
    ensures |p| == n
    ensures forall j :: 0 <= j < n ==> p[j] == Lit(IndexAfter(start, j))
    decreases n
  {
    if n == 0 then [] else Shown(start, n - 1) + [Lit(IndexAfter(start, n - 1))]
  }

  /**
   * The LED task's state: the levels of the pins in `led_pins` (red, green,
   * blue) and `current_color_index`.
   */
  class RgbLed {
    const pins: array<bool>
    var index: int

    /** Between iterations: a valid colour index and every pin off. */
    ghost predicate Valid()
      reads this, pins
    {
      pins.Length == 3 && 0 <= index < 3 && pins[..] == AllOff()
    }

    /** Binds the task to its three output pins, whatever their levels at power-on. */
    constructor (board: array<bool>)
      requires board.Length == 3
      ensures pins == board
    {
      pins := board;
    }

    /** The task's start: drive every pin low, then start at colour 0. */
    method Init()
      requires pins.Length == 3
      modifies this, pins
      ensures Valid() && index == 0
    {
      for i := 0 to 3
        invariant forall k :: 0 <= k < i ==> !pins[k]
      {
        pins[i] := false;
      }
      index := 0;
    }

    /**
     * One iteration of the colour loop. Returns the pin levels shown during
     * the wait (only the current colour lit) and the wait; afterwards every
     * pin is off again and the index has advanced round the cycle.
     */
    method Step() returns (shown: seq<bool>, waitedMs: nat)
      requires Valid()
      modifies pins, this`index
      ensures Valid()
      ensures index == Next(old(index))
      ensures shown == Lit(old(index))
      ensures waitedMs == ColorDelayMs
    {
      pins[index] := true;
      shown := pins[..];
      waitedMs := ColorDelayMs;
      pins[index] := false;
      index := index + 1;
      if index >= 3 {
        index := 0;
      }
    }

    /**
     * The first `n` iterations of the endless colour loop. Iteration `j`
     * shows only the colour `j` steps on from the start; the index ends `n`
     * steps on, and the loop waits 500·n ms.
     */
    method Run(n: nat) returns (shown: seq<seq<bool>>, waitedMs: nat)
      requires Valid()
      modifies pins, this`index
      ensures Valid()
      ensures index == IndexAfter(old(index), n)
      ensures shown == Shown(old(index), n)
      ensures waitedMs == ColorDelayMs * n
    {
      ghost var start: ColorIndex := index;
      shown, waitedMs := [], 0;
      var k := 0;
      while k < n
        invariant 0 <= k <= n
        invariant Valid()
        invariant index == IndexAfter(start, k)
        invariant shown == Shown(start, k)
        invariant waitedMs == ColorDelayMs * k
      {
        var s, w := Step();
        shown, waitedMs := shown + [s], waitedMs + w;
        k := k + 1;
      }
    }
  }
}
