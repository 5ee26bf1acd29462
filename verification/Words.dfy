/** Machine words as the C code sees them. */
module Words {
  const U64: int := 0x1_0000_0000_0000_0000

  /** The value of a u64 expression. */
  function Wrap(x: int): nat {
    if 0 <= x < U64 then x else x % U64
  }

  /** The value of (s64)x. */
  function Signed(x: int): int {
    if x % U64 < U64 / 2 then x % U64 else x % U64 - U64
  }

  function Min(a: int, b: int): int {
    if a < b then a else b
  }

  function Max(a: int, b: int): int {
    if a < b then b else a
  }
}
