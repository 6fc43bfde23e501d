/** Integer facts the sprite-sheet and face-sheet arithmetic rests on. */
module Arith {

  /** Cancelling a positive factor. */
  lemma MulCancel(a: int, b: int, w: int)
    requires 0 < w && a * w == b * w
    ensures a == b
  {
    assert (a - b) * w == 0;
  }
}
