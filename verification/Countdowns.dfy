/** Countdowns on unsigned 32-bit numbers. */
module Countdowns {

  /** One unsigned decrement. */
  function Dec(x: nat): nat {
    if x == 0 then 0xFFFF_FFFF else x - 1
  }
}
