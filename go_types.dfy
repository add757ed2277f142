/** Go's fixed-width integers and the conversions between them that the facade relies on.
    Go's `uint32(x)` and `int32(u)` conversions keep the low 32 bits, so they are
    reinterpretations modulo 2^32 rather than range checks. */
module GoTypes {

  datatype Option<+T> = None | Some(value: T)

  const TWO_32: int := 0x1_0000_0000
  const TWO_31: int := 0x8000_0000

  newtype uint32 = x: int | 0 <= x < 0x1_0000_0000
  newtype int32 = x: int | -0x8000_0000 <= x < 0x8000_0000
  newtype int64 = x: int | -0x8000_0000_0000_0000 <= x < 0x8000_0000_0000_0000

  /** Go's `uint32(x)` for an `int32` x: the same bit pattern read as unsigned. */
  function ToUint32(x: int32): (r: uint32)
    ensures (r as int - x as int) % TWO_32 == 0
    ensures x >= 0 ==> r as int == x as int
    ensures x < 0 ==> r as int >= TWO_31
  {
    if x < 0 then (x as int + TWO_32) as uint32 else x as int as uint32
  }

  /** Go's `int32(u)` for a `uint32` u: the same bit pattern read as two's complement. */
  function ToInt32(u: uint32): (r: int32)
    ensures (r as int - u as int) % TWO_32 == 0
    ensures u as int < TWO_31 ==> r as int == u as int
    ensures u as int >= TWO_31 ==> r < 0
  {
    if u as int >= TWO_31 then (u as int - TWO_32) as int32 else u as int as int32
  }

  /** The two reinterpretations are inverse to each other on every value. */
  lemma PortRoundTrip(x: int32, u: uint32)
    ensures ToInt32(ToUint32(x)) == x
    ensures ToUint32(ToInt32(u)) == u
  {
  }

  /** Decimal text of n. */
  function NatText(n: nat): (s: string)
    ensures |s| >= 1
    ensures forall i :: 0 <= i < |s| ==> '0' <= s[i] <= '9'
    decreases n
  {
    var d := [(n % 10 + '0' as int) as char];
    if n < 10 then d else NatText(n / 10) + d
  }
}
