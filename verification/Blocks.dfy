/** Where the blocks of equal width of a buffer start. */
module Blocks {

  /** Where block b starts when every block has the given width. */
  function StartOf(b: nat, width: nat): nat {
    if b == 0 then 0 else StartOf(b - 1, width) + width
  }

  lemma {:induction false} StartIsProduct(b: nat, width: nat)
    ensures StartOf(b, width) == b * width
  {
    if b == 0 {
    } else {
      StartIsProduct(b - 1, width);
      assert b * width == (b - 1) * width + width;
    }
  }

  lemma {:induction false} StartsOrdered(a: nat, b: nat, width: nat)
    requires a <= b
    ensures StartOf(a, width) <= StartOf(b, width)
    ensures a < b ==> StartOf(a, width) + width <= StartOf(b, width)
  {
    if a == b {
    } else {
      StartsOrdered(a, b - 1, width);
    }
  }
}
