/** The ten-frame loading spinner of the terminal interface. */
module Widgets {
  /** The braille frames, in the order they are shown. */
  const SPINNER_FRAMES: seq<string> := ["\U{280B}", "\U{2819}", "\U{2839}", "\U{2838}", "\U{283C}",
                                        "\U{2834}", "\U{2826}", "\U{2827}", "\U{2807}", "\U{280F}"]

  /** The frame after `f`: one on, wrapping to the first after the last. */
  function NextFrame(f: nat): (r: nat)
    ensures r < |SPINNER_FRAMES|
    ensures f < |SPINNER_FRAMES| - 1 ==> r == f + 1
    ensures f == |SPINNER_FRAMES| - 1 ==> r == 0
  {
    (f + 1) % |SPINNER_FRAMES|
  }

  /** The frame after `n` ticks from `f`. */
  function Ticks(f: nat, n: nat): nat
    decreases n
  {
    if n == 0 then f else NextFrame(Ticks(f, n - 1))
  }

  /** `n` ticks advance a frame by `n`, modulo the number of frames. */
  lemma {:induction false} TicksAdvance(f: nat, n: nat)
    requires f < |SPINNER_FRAMES|
    ensures Ticks(f, n) == (f + n) % |SPINNER_FRAMES|
    decreases n
  {
    if n > 0 {
      var prev := Ticks(f, n - 1);
      TicksAdvance(f, n - 1);
      NextOfRemainder(f + n - 1);
      assert Ticks(f, n) == NextFrame(prev);
    }
  }

  /** Stepping on from a remainder is the remainder of the next number. */
  lemma NextOfRemainder(m: nat)
    ensures NextFrame(m % |SPINNER_FRAMES|) == (m + 1) % |SPINNER_FRAMES|
  {
    assert |SPINNER_FRAMES| == 10;
    var q, r := m / 10, m % 10;
    assert m == 10 * q + r && r < 10;
    if r < 9 {
      assert m + 1 == 10 * q + (r + 1);
    } else {
      assert m + 1 == 10 * (q + 1);
    }
  }

  /** Ten ticks bring the spinner back to the frame it started from. */
  lemma FullTurn(f: nat)
    requires f < |SPINNER_FRAMES|
    ensures Ticks(f, |SPINNER_FRAMES|) == f
  {
    TicksAdvance(f, |SPINNER_FRAMES|);
    assert (f + |SPINNER_FRAMES|) % |SPINNER_FRAMES| == f;
  }

  class Spinner {
    var frame: nat

    /** The frame index stays within the frame table. */
    ghost predicate Valid()
      reads this
    {
      frame < |SPINNER_FRAMES|
    }

    /** `Spinner::new`: the first frame. */
    constructor()
      ensures frame == 0 && Valid()
    {
      frame := 0;
    }

    /** `Spinner::tick`: on to the next frame, whatever the current one. */
    method Tick()
      modifies this
      ensures frame == NextFrame(old(frame))
      ensures Valid()
    {
      frame := (frame + 1) % |SPINNER_FRAMES|;
    }

    /** `Spinner::current`: the frame on show, always one of the table's. */
    function Current(): (r: string)
      requires Valid()
      reads this
      ensures r in SPINNER_FRAMES
    {
      SPINNER_FRAMES[frame]
    }
  }
}
