/** The size computation of the back end's bitmap utility. */
module Bitmaps {

  /** `BitmapSize(numBits)`: the number of bytes needed to hold `numBits` bits. */
  function BitmapSize(numBits: nat): (bytes: nat)
    ensures bytes * 8 >= numBits
    ensures bytes > 0 ==> (bytes - 1) * 8 < numBits
  {
    (numBits + 7) / 8
  }

  /** The sizes the bitmap unit test asserts. */
  lemma BitmapSizeExamples()
    ensures BitmapSize(0) == 0
    ensures BitmapSize(1) == 1
    ensures BitmapSize(8) == 1
    ensures BitmapSize(9) == 2
  {
  }
}
