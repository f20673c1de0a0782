/**
 * Fixed-width integer ranges used by the buffer layer, and a small helper.
 * `size_t` quantities are modelled as unbounded `nat`; `std::uint8_t` and
 * `std::uint32_t` fields keep their ranges as subset types.
 */
module CoreTypes {

  /** 2^32: one more than the largest `std::uint32_t`. */
  const UINT32_BOUND: int := 0x1_0000_0000

  type uint8 = x: int | 0 <= x < 0x100
  type uint32 = x: int | 0 <= x < 0x1_0000_0000

  /** `std::min` on element counts. */
  function Min(a: nat, b: nat): (m: nat)
    ensures m <= a && m <= b && (m == a || m == b)
  {
    if a <= b then a else b
  }
}
