/** The watermark of the windowed join (pkg/core/watermark.go, lines 15-34): a time counter in
    Unix seconds that only ever moves by whole windows. The source reads the clock once, at
    creation; here that reading is a parameter. */
module Watermark {

  /** The watermark reached from `t` after `n` advances by `windowSize`. */
  function AdvancedBy(t: int, windowSize: int, n: nat): int {
    if n == 0 then t else AdvancedBy(t, windowSize, n - 1) + windowSize
  }

  /** After `n` advances the watermark has moved by exactly `n` windows. */
  lemma {:induction false} AdvancedByIsWholeWindows(t: int, windowSize: int, n: nat)
    ensures AdvancedBy(t, windowSize, n) == t + n * windowSize
  {
    if n > 0 {
      AdvancedByIsWholeWindows(t, windowSize, n - 1);
    }
  }

  /** Advancing never moves the watermark back when the window is not negative, and never
      moves it forward when the window is not positive; nothing in the source rules out a
      negative window. */
  lemma {:induction false} AdvancedByIsMonotone(t: int, windowSize: int, m: nat, n: nat)
    requires m <= n
    ensures windowSize >= 0 ==> AdvancedBy(t, windowSize, m) <= AdvancedBy(t, windowSize, n)
    ensures windowSize <= 0 ==> AdvancedBy(t, windowSize, m) >= AdvancedBy(t, windowSize, n)
  {
    AdvancedByIsWholeWindows(t, windowSize, m);
    AdvancedByIsWholeWindows(t, windowSize, n);
    assert n * windowSize == m * windowSize + (n - m) * windowSize;
    if windowSize >= 0 {
      assert (n - m) * windowSize >= 0;
    } else {
      assert (n - m) * windowSize <= 0;
    }
  }

  class Watermark {
    var t: int
    const windowSize: int

    /** `NewWatermark`: the window size, and the clock reading as the starting value. */
    constructor (windowSize: int, now: int)
      ensures t == now && this.windowSize == windowSize
    {
      this.windowSize := windowSize;
      t := now;
    }

    /** `Get`: the current value, changing nothing. */
    method Get() returns (r: int)
      ensures r == t
    {
      r := t;
    }

    /** `Advance`: moves the watermark forward by one window. */
    method Advance()
      modifies this
      ensures t == old(t) + windowSize
    {
      t := t + windowSize;
    }
  }
}
