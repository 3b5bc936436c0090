/** Clamping a value into a closed interval, as Unity's `Mathf.Clamp` and the inline
    clamp of the threshold accessor do it: test the lower bound first, then the upper. */
module Clamping {

  function Clamp(x: real, lo: real, hi: real): (r: real)
    ensures lo <= hi ==> lo <= r <= hi
    ensures lo <= x <= hi ==> r == x
    ensures x < lo ==> r == lo
    ensures lo <= x && x > hi ==> r == hi
  {
    if x < lo then lo
    else if x > hi then hi
    else x
  }
}
