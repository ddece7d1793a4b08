/** Error codes of the public interface and the C integer conversions the core relies on. */
module Common {

  /** The caller-visible error codes (OIDNError). */
  datatype ErrorCode =
    | NoError
    | Unknown
    | InvalidArgument
    | InvalidOperation
    | OutOfMemory
    | UnsupportedHardware
    | Cancelled

  /** size_t is 64 bits wide: its arithmetic is modulo this value. */
  const SizeModulus: nat := 0x1_0000_0000_0000_0000

  /** std::numeric_limits<int>::max() for a 32-bit int. */
  const IntMax: nat := 0x7fff_ffff

  datatype Option<T> = None | Some(value: T)

  /** The C++ conversion `int(n)` of a size_t: keep the low 32 bits, read them as two's complement. */
  function ToInt32(n: nat): (r: int)
    ensures -0x8000_0000 <= r <= IntMax
    ensures n <= IntMax ==> r == n
  {
    var low := n % 0x1_0000_0000;
    if low <= IntMax then low else low - 0x1_0000_0000
  }

  /** The implicit conversion of an int back to size_t (negative values wrap around). */
  function ToSize(i: int): (r: nat)
    ensures r < SizeModulus
    ensures 0 <= i < SizeModulus ==> r == i
  {
    i % SizeModulus
  }

  /** Passing a size_t through `(int)` and back keeps every value below 2^31 ... */
  lemma ThroughIntKeepsSmall(n: nat)
    requires n <= IntMax
    ensures ToSize(ToInt32(n)) == n
  {
  }

  /** ... and silently drops the high bits of larger ones: 2^32 + 4 becomes 4. */
  lemma ThroughIntTruncates()
    ensures ToSize(ToInt32(0x1_0000_0004)) == 4
    ensures ToSize(ToInt32(0x8000_0000)) == SizeModulus - 0x8000_0000
  {
  }
}
