/**
 * Shared vocabulary of the model: optional values, bytes, 16-byte digests,
 * header pairs and the arithmetic of the C++ `size_t` type.
 */
module Base {

  datatype Option<T> = None | Some(value: T)

  newtype byte = x: int | 0 <= x < 256

  /** What MD5 produces: exactly sixteen bytes. */
  type Digest = s: seq<byte> | |s| == 16 witness seq(16, _ => 0 as byte)

  /** One header line: a key and a value. */
  type Header = (string, string)

  /** `std::string::npos`, the largest `size_t` on a 64-bit target. */
  const NPOS: nat := 0xFFFF_FFFF_FFFF_FFFF

  /**
   * Unsigned `size_t` arithmetic wraps modulo 2^64. The sums and differences
   * the model forms from two `size_t` values stay within one wrap of the range.
   */
  function SizeT(x: int): (r: nat)
    requires -(NPOS + 1) <= x <= 2 * NPOS + 1
    ensures r <= NPOS
  {
    if x < 0 then x + NPOS + 1
    else if x > NPOS then x - NPOS - 1
    else x
  }

  /** The branches agree with reduction modulo 2^64. */
  lemma SizeTIsModulo(x: int)
    requires -(NPOS + 1) <= x <= 2 * NPOS + 1
    ensures SizeT(x) == x % (NPOS + 1)
  {
  }

  /** The length of an optional nginx string: a NULL `data` counts as empty. */
  function Len(s: Option<string>): nat
  {
    if s.Some? then |s.value| else 0
  }
}
