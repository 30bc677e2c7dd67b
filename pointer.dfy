/**
 * Pointer normalisation, written out identically in the hero, products and
 * benefits sections: a client coordinate is rescaled against the viewport
 * size so that the left/top edge reads -1, the centre 0 and the right/bottom
 * edge 1.
 */
module Pointer {
  import Arith

  /** `(client / size - 0.5) * 2` for a positive viewport size. */
  function Normalize(client: real, size: real): (r: real)
    requires size > 0.0
    ensures client == 0.0 ==> r == -1.0
    ensures client == size ==> r == 1.0
    ensures client == size / 2.0 ==> r == 0.0
    ensures 0.0 <= client <= size <==> -1.0 <= r <= 1.0
  {
    Arith.Fraction(client, client, size);
    (client / size - 0.5) * 2.0
  }

  /** The client coordinate a normalised value came from. */
  function Denormalize(r: real, size: real): (client: real)
    requires size > 0.0
    ensures Normalize(client, size) == r
  {
    var q := r / 2.0 + 0.5;
    assert (q * size) / size == q;
    q * size
  }

  /** A pointer further right (or down) never reads smaller: normalisation is strictly increasing. */
  lemma NormalizeIncreasing(a: real, b: real, size: real)
    requires size > 0.0 && a < b
    ensures Normalize(a, size) < Normalize(b, size)
  {
    assert a / size < b / size by {
      assert b / size - a / size == (b - a) / size;
    }
  }

  /**
   * The `mousePosition` state each section keeps: `{ x: 0, y: 0 }` until the
   * first `mousemove`, then the normalised pointer.
   */
  class MousePosition {
    var x: real
    var y: real

    constructor ()
      ensures x == 0.0 && y == 0.0
    {
      x, y := 0.0, 0.0;
    }

    /** The `mousemove` handler, with the viewport size passed in. */
    method HandleMouseMove(clientX: real, clientY: real, width: real, height: real)
      requires width > 0.0 && height > 0.0
      modifies this
      ensures x == Normalize(clientX, width) && y == Normalize(clientY, height)
      ensures 0.0 <= clientX <= width && 0.0 <= clientY <= height ==>
                -1.0 <= x <= 1.0 && -1.0 <= y <= 1.0
    {
      x := Normalize(clientX, width);
      y := Normalize(clientY, height);
    }
  }
}
