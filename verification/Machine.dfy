/** Machine integers, bytes and addresses as the proxy sees them. */
module Machine {
  const U32_MAX: int := 0xFFFF_FFFF
  const U64_MAX: int := 0xFFFF_FFFF_FFFF_FFFF

  type u32 = x: int | 0 <= x <= U32_MAX
  type u64 = x: int | 0 <= x <= U64_MAX
  type byte = x: int | 0 <= x < 256
  type Bytes = seq<byte>

  datatype Option<+T> = None | Some(value: T)

  /** `u64::saturating_add`. */
  function SatAdd(a: u64, b: u64): u64 {
    if a + b <= U64_MAX then a + b else U64_MAX
  }

  /** `u64::saturating_sub`. */
  function SatSub(a: u64, b: u64): u64 {
    if b <= a then a - b else 0
  }

  /** `secs.saturating_mul(1000)`. */
  function Millis(secs: u64): u64 {
    if secs * 1000 <= U64_MAX then secs * 1000 else U64_MAX
  }

  function Min(a: int, b: int): int {
    if a <= b then a else b
  }

  function Max(a: int, b: int): int {
    if a <= b then b else a
  }

  /** The saturating "time left" computed by the liveness timers is zero exactly when the exact
      deadline, in milliseconds, has passed, as long as the clock is below its ceiling; and it
      is the exact time left, but for the ceiling. */
  lemma TimeLeft(last: u64, secs: u64, now: u64)
    requires now < U64_MAX
    ensures var left := SatSub(SatAdd(last, Millis(secs)), now);
            && (left == 0 <==> now >= last + 1000 * secs)
            && left == Max(0, Min(last + 1000 * secs, U64_MAX) - now)
  {}
}

/** Socket addresses. */
module Net {
  import opened Machine

  type Octets4 = s: Bytes | |s| == 4 witness [0, 0, 0, 0]
  type Octets16 = s: Bytes | |s| == 16 witness [0, 0, 0, 0, 0, 0, 0, 0, 0, 0, 0, 0, 0, 0, 0, 0]
  type u16 = x: int | 0 <= x < 0x1_0000

  datatype IpAddr = V4(v4: Octets4) | V6(v6: Octets16)
  datatype SocketAddr = SocketAddr(ip: IpAddr, port: u16)
}
