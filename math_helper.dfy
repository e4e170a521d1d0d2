/** The numeric helper the scenes use to keep the screen brightness in range. */
module MathHelper {

  /** `MathHelper::clamp` applied to an int counter (the int-to-float-to-int
      round trip is exact for the small values involved). */
  function Clamp(value: int, lo: int, hi: int): (r: int)
    requires lo <= hi
    ensures lo <= r <= hi
    ensures lo <= value <= hi ==> r == value
    ensures value < lo ==> r == lo
    ensures hi < value ==> r == hi
  {
    if value < lo then lo else if hi < value then hi else value
  }
}
