/** Fixed-width integers of the decoder and the C++ conversions between them.

The decoder works on `uint8_t` bytes, combines big-endian pairs into 16-bit words and
hands some of those words to callbacks typed `int16_t`. Dafny integers are unbounded,
so every truncation and reinterpretation the C++ code performs implicitly is written
out here once and used everywhere else.
*/
module Bytes {

  type uint8 = x: int | 0 <= x < 0x100
  type uint16 = x: int | 0 <= x < 0x1_0000
  type int16 = x: int | -0x8000 <= x < 0x8000

  /** The optional value of a read that may come up short. */
  datatype Option<+T> = None | Some(value: T)

  /** Conversion of an `int` to `uint8_t`: keeps the low eight bits. */
  function Uint8(x: int): (r: uint8)
    ensures (x - r) % 0x100 == 0
    ensures 0 <= x < 0x100 ==> r == x
  {
    x % 0x100
  }

  /** `(hi << 8) | lo`: the big-endian combination of two bytes. */
  function Word(hi: uint8, lo: uint8): (w: uint16)
    ensures w / 0x100 == hi && w % 0x100 == lo
  {
    hi * 0x100 + lo
  }

  /** Conversion of a 16-bit pattern to `int16_t` (two's complement). */
  function Int16(w: uint16): (r: int16)
    ensures (r - w) % 0x1_0000 == 0
    ensures w < 0x8000 <==> r >= 0
  {
    if w < 0x8000 then w else w - 0x1_0000
  }

  /** Conversion of an `int16_t` back to `uint16_t`. */
  function Uint16(x: int16): (r: uint16)
    ensures (x - r) % 0x1_0000 == 0
  {
    if x < 0 then x + 0x1_0000 else x
  }

  lemma Int16RoundTrip(w: uint16)
    ensures Uint16(Int16(w)) == w
  {
  }

  /** C++ integer division: truncates toward zero (Dafny's `/` is Euclidean). */
  function CDiv(a: int, d: int): (q: int)
    requires d > 0
    ensures a >= 0 ==> q == a / d
    ensures a < 0 ==> q == -((-a) / d)
  {
    if a >= 0 then a / d else -((-a) / d)
  }

  /** C++ remainder: takes the sign of the dividend. */
  function CRem(a: int, d: int): (r: int)
    requires d > 0
    ensures a == CDiv(a, d) * d + r
    ensures -d < r < d
    ensures a >= 0 ==> r >= 0
  {
    a - CDiv(a, d) * d
  }

  /** The big-endian `uint16_t` at `pos`, when two bytes are there. */
  function ReadUint16Big(data: seq<uint8>, pos: nat): (r: Option<uint16>)
    ensures r.Some? <==> pos + 2 <= |data|
    ensures r.Some? ==> r.value / 0x100 == data[pos] && r.value % 0x100 == data[pos + 1]
  {
    if pos + 2 <= |data| then Some(Word(data[pos], data[pos + 1])) else None
  }
}
