// Integer types of the C sources, and the reading of hexadecimal digits that two of them share.

module Machine {
  import opened Wrappers

  type byte = b: nat | b < 256

  type uint8 = n: nat | n < 256

  type uint16 = n: nat | n < 0x1_0000

  type uint32 = n: nat | n < 0x1_0000_0000

  type int16 = n: int | -0x8000 <= n < 0x8000

  /** Conversion to a signed 16-bit number, which wraps. */
  function ToInt16(n: int): int16 { (n + 0x8000) % 0x1_0000 - 0x8000 }

  function Min(a: int, b: int): int { if a < b then a else b }

  function Nibble(c: char): (n: Option<nat>)
    ensures n.Some? ==> n.value < 16
  {
    if '0' <= c <= '9' then Some(c as int - '0' as int)
    else if 'a' <= c <= 'f' then Some(c as int - 'a' as int + 10)
    else if 'A' <= c <= 'F' then Some(c as int - 'A' as int + 10)
    else None
  }
}
