/** The two clocks the original reads. Both count nanoseconds; the wall clock
    from the Unix epoch (so it may be negative), the instant from an arbitrary
    origin. Only the instant is monotonic. */
module Clocks {
  import opened Prelude

  const SECOND: nat := 1_000_000_000

  /** `Duration::MAX`. */
  const DURATION_MAX: nat := U64_MAX * SECOND + 999_999_999

  /** The last representable values, which differ between platforms. */
  datatype Limits = Limits(wallMax: int, instantMax: int)

  datatype Reading = Reading(wall: int, instant: int)

  function CheckedAdd(time: int, duration: nat, max: int): Option<int> {
    if time + duration <= max then Some(time + duration) else None
  }

  /** `later - earlier`, or zero when that is negative. */
  function SaturatingSince(later: int, earlier: int): nat {
    if later >= earlier then later - earlier else 0
  }

  function Pow2(n: nat): nat {
    if n == 0 then 1 else 2 * Pow2(n - 1)
  }

  /** `2_u32.saturating_pow(exponent)`. */
  function SaturatingPow2(exponent: nat): nat {
    Min(Pow2(exponent), U32_MAX)
  }

  lemma {:induction false} Pow2Monotone(m: nat, n: nat)
    requires m <= n
    ensures Pow2(m) <= Pow2(n)
    decreases n
  {
    if m < n {
      Pow2Monotone(m, n - 1);
    }
  }
}
