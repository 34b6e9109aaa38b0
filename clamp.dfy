/** Saturation of a value into a closed interval, as `pygame.math.clamp` does it:
    a value below the lower bound becomes the lower bound, a value above the upper
    bound becomes the upper bound, anything else is returned unchanged. */
module Clamping {

  function Clamp(v: real, lo: real, hi: real): (r: real)
    ensures lo <= hi ==> lo <= r <= hi
    ensures v < lo ==> r == lo
    ensures lo <= v <= hi ==> r == v
    ensures lo <= hi && hi < v ==> r == hi
  {
    if v < lo then lo else if v > hi then hi else v
  }
}
