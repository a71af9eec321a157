/**
 * How `setTimeout(callback, delay * 1000)` turns a delay in seconds into the
 * timeout the browser waits for. The timeout parameter of `setTimeout` is a
 * WebIDL `long`, so the product is reduced modulo 2^32 into the signed 32-bit
 * range; the timer initialization steps of section 8.6 (Timers) of the WHATWG
 * HTML Living Standard then raise a negative timeout to 0. A NaN product
 * converts to 0.
 */
module Timeouts {
  import opened ChatTypes

  const TwoTo32: int := 0x1_0000_0000
  const MaxLong: int := 0x7FFF_FFFF

  /** The largest delay, in seconds, whose timeout is exactly `delay * 1000`. */
  const MaxExactSeconds: int := 2_147_483

  /** WebIDL conversion of an integral number to `long`. */
  function ToLong(x: int): (r: int)
    ensures -MaxLong - 1 <= r <= MaxLong
    ensures (x - r) % TwoTo32 == 0
    ensures -MaxLong - 1 <= x <= MaxLong ==> r == x
  {
    var m := x % TwoTo32;
    if m <= MaxLong then m else m - TwoTo32
  }

  /** The timeout, in milliseconds, of the timer armed for a message with delay `d`. */
  function TimeoutMs(d: Delay): (t: nat)
    ensures t <= MaxLong
    ensures d.NaN? ==> t == 0
    ensures d.Seconds? && 0 <= d.n <= MaxExactSeconds ==> t == d.n * 1000
    ensures d.Seconds? && -MaxExactSeconds <= d.n <= 0 ==> t == 0
    ensures d.Seconds? && MaxExactSeconds < d.n <= 2 * MaxExactSeconds + 1 ==> t == 0
  {
    match d
    case NaN => 0
    case Seconds(n) =>
      var l := ToLong(n * 1000);
      if l < 0 then 0 else l
  }

  /** Within the exact range, a longer delay means a strictly longer timeout. */
  lemma TimeoutMonotone(a: int, b: int)
    requires 0 <= a < b <= MaxExactSeconds
    ensures TimeoutMs(Seconds(a)) < TimeoutMs(Seconds(b))
  {
  }

  /** One second past the exact range the product wraps to a negative `long`, so the timer fires at once. */
  lemma TimeoutWrapsPastMaxExact()
    ensures TimeoutMs(Seconds(MaxExactSeconds + 1)) == 0
  {
    assert (MaxExactSeconds + 1) * 1000 == 2_147_484_000;
  }

  /**
   * Further out the product wraps around again: a delay of 4294968 seconds
   * waits 704 ms, and one of -2147484 seconds waits almost 25 days.
   */
  lemma TimeoutWrapsAroundAgain()
    ensures TimeoutMs(Seconds(2 * MaxExactSeconds + 2)) == 704
    ensures TimeoutMs(Seconds(-MaxExactSeconds - 1)) == 2_147_483_296
  {
    assert (2 * MaxExactSeconds + 2) * 1000 == TwoTo32 + 704;
    assert (-MaxExactSeconds - 1) * 1000 == 2_147_483_296 - TwoTo32;
  }
}
