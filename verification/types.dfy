/** Vocabulary shared by every stage of the price-update pipeline. */
module Types {

  /** A contract or entity address, in the hex form the store uses as an id. */
  type Address = string

  /** A lookup that may come back empty, such as loading an entity that was never saved. */
  datatype Option<T> = None | Some(value: T)

  /** The scaling factor `10^d` of an asset with `d` decimals (`tenToThePowerOf`). */
  function TenToThePowerOf(d: nat): (r: nat)
    ensures r >= 1
  {
    if d == 0 then 1 else 10 * TenToThePowerOf(d - 1)
  }

  /** Floor division of naturals by a positive divisor, as the source's BigInt `div`. */
  function FloorDiv(a: nat, b: nat): nat
    requires b > 0
  {
    a / b
  }

  /** Integer floor division lies within one divisor of the exact quotient. */
  lemma FloorDivBounds(a: nat, b: nat)
    requires b > 0
    ensures FloorDiv(a, b) * b <= a < (FloorDiv(a, b) + 1) * b
  {
  }
}
