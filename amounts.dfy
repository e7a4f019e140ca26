/** Money amounts. The contract stores every amount as an unsigned 128-bit
    integer; here an amount is a `nat`. */
module Amounts {

  /** The smaller of two amounts; on a tie the second argument is returned,
      as `u128.lt(a, b) ? a : b` does. */
  function Min(a: nat, b: nat): (m: nat)
    ensures m <= a && m <= b
    ensures m == a || m == b
  {
    if a < b then a else b
  }
}
