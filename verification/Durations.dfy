/** Go durations: 64-bit nanoseconds, whole-second leases, wrap-around where Go wraps. */
module Durations {

  const SECOND: int := 1_000_000_000
  const MILLISECOND: int := 1_000_000
  const MAX_INT64: int := 0x7FFF_FFFF_FFFF_FFFF
  const TWO64: int := 0x1_0000_0000_0000_0000

  predicate IsInt64(x: int) {
    -MAX_INT64 - 1 <= x <= MAX_INT64
  }

  /** Two's complement wrap-around of Go's int and Duration arithmetic. */
  function Wrap64(x: int): (r: int)
    ensures IsInt64(r)
    ensures r == x <==> IsInt64(x)
    ensures MAX_INT64 < x < TWO64 ==> r == x - TWO64
  {
    var m := x % TWO64;
    if m > MAX_INT64 then m - TWO64 else m
  }

  /** `durationSeconds`: whole seconds, rounded up. */
  function DurationSeconds(d: int): (s: nat)
    ensures d <= 0 ==> s == 0
    ensures d > 0 ==> (s - 1) * SECOND < d <= s * SECOND
  {
    if d <= 0 then 0 else (d + SECOND - 1) / SECOND
  }

  /** `normalizeLeaseDuration`: the lease that is really asked of the store. */
  function NormalizeLease(d: int, fallback: int): int {
    var seconds := DurationSeconds(if d <= 0 then fallback else d);
    if seconds <= 0 then 0 else Wrap64(seconds * SECOND)
  }

  /** Normalizing gives a whole number of seconds that covers the request by less than a second
      more, and normalizing again changes nothing: exactly when rounding up stays in 64 bits. */
  lemma NormalizeLeaseCovers(d: int, fallback: int)
    requires 0 < d && IsInt64(d)
    ensures d <= NormalizeLease(d, fallback) < d + SECOND <==> DurationSeconds(d) * SECOND <= MAX_INT64
    ensures DurationSeconds(d) * SECOND <= MAX_INT64 ==>
              NormalizeLease(d, fallback) == DurationSeconds(d) * SECOND
              && DurationSeconds(NormalizeLease(d, fallback)) == DurationSeconds(d)
              && NormalizeLease(NormalizeLease(d, fallback), fallback) == NormalizeLease(d, fallback)
  {
    var s := DurationSeconds(d);
    assert s * SECOND < d + SECOND;
    if s * SECOND <= MAX_INT64 {
      SecondsOfWhole(s);
    } else {
      assert NormalizeLease(d, fallback) == s * SECOND - TWO64 < 0;
    }
  }

  lemma SecondsOfWhole(s: nat)
    ensures DurationSeconds(s * SECOND) == s
  {
    var r := DurationSeconds(s * SECOND);
    if s > 0 {
      assert (r - 1) * SECOND < s * SECOND <= r * SECOND;
    }
  }

  /** A normalized lease is whole seconds that cover the request, unless it wrapped; then it asks
      for nothing. */
  lemma LeaseInSeconds(d: int, fallback: int)
    requires IsInt64(d) && IsInt64(fallback)
    ensures var lease, wanted := NormalizeLease(d, fallback), if d <= 0 then fallback else d;
            || (DurationSeconds(lease) * SECOND == lease && lease >= wanted)
            || DurationSeconds(lease) == 0
  {
    var wanted := if d <= 0 then fallback else d;
    if wanted > 0 {
      NormalizeLeaseCovers(wanted, fallback);
      if DurationSeconds(wanted) * SECOND > MAX_INT64 {
        assert NormalizeLease(d, fallback) == DurationSeconds(wanted) * SECOND - TWO64 < 0;
      }
    }
  }
}
