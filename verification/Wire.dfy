/** Bytes, clock readings and the small vocabulary shared by every module. */
module Wire {
  type Byte = x: int | 0 <= x < 256
  type Bytes = seq<Byte>

  /** A monotonic clock reading or a duration, in nanoseconds. */
  type Time = int

  const MILLISECOND: Time := 1_000_000

  datatype Option<+T> = None | Some(value: T)

  /** Unsigned four-byte little-endian field. */
  function U32(p: Bytes, offset: nat): (r: nat)
    requires offset + 4 <= |p|
    ensures r < 0x1_0000_0000
  {
    var b0: int, b1: int, b2: int, b3: int := p[offset], p[offset + 1], p[offset + 2], p[offset + 3];
    b0 + 0x100 * b1 + 0x1_0000 * b2 + 0x100_0000 * b3
  }

  /** Conservative local deadline for a radio timeout suggested by the firmware, in milliseconds. */
  function RetainedDeadline(now: Time, suggested: nat): (d: Time)
    ensures d >= now + 5_000 * MILLISECOND
    ensures d > now + suggested * MILLISECOND
  {
    var retained := suggested * 5 / 4 + 1_000;
    now + (if retained < 5_000 then 5_000 else retained) * MILLISECOND
  }
}
