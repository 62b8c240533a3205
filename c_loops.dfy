/**
 * Loops counted with an 8-bit index, `for (uint8_t i = 0; i < n; i++)`,
 * against a bound `n` of a wider type (the `size_t` table sizes of SPI_init
 * and DIO_init, the `uint16_t` buffer size of SPI_receive). The increment
 * wraps from 255 to 0, so the guard compares `n` with the iteration count
 * modulo 256.
 */
module CLoops {

  /** `i++` on a `uint8_t`: 255 wraps to 0. */
  function Increment(i: nat): nat
    requires i < 256
  {
    if i == 255 then 0 else i + 1
  }

  /** The value of the `uint8_t` index after `k` increments from 0. */
  function IndexAfter(k: nat): (i: nat)
    ensures i < 256
  {
    if k == 0 then 0 else Increment(IndexAfter(k - 1))
  }

  /** The index is the iteration count modulo 256. */
  lemma {:induction false} IndexWraps(k: nat)
    ensures IndexAfter(k) == k % 256
  {
    if k > 0 {
      IndexWraps(k - 1);
      var q, r := (k - 1) / 256, (k - 1) % 256;
      assert k == 256 * q + r + 1;
      if r == 255 {
        assert k == 256 * (q + 1) + 0;
      } else {
        assert k == 256 * q + (r + 1);
      }
    }
  }

  /** A bound of at most 255 is reached after exactly `n` iterations, and not before. */
  lemma SmallBoundExits(n: nat)
    requires n < 256
    ensures IndexAfter(n) == n
    ensures forall k | 0 <= k < n :: IndexAfter(k) < n
  {
    IndexWraps(n);
    forall k | 0 <= k < n
      ensures IndexAfter(k) < n
    {
      IndexWraps(k);
    }
  }

  /** A bound of 256 or more is never reached: whatever the iteration count, the index is below `n`, so the guard `i < n` never fails. (The loop's only exit is that guard; the body has no `break`.) */
  lemma LargeBoundNeverExits(n: nat, k: nat)
    requires 256 <= n
    ensures IndexAfter(k) < n
  {
    IndexWraps(k);
  }

  /** After 256 iterations the index is back where it started, so entry 256 is entry 0 again. */
  lemma {:induction false} IndexRepeats(k: nat)
    ensures IndexAfter(k + 256) == IndexAfter(k)
  {
    if k == 0 {
      IndexWraps(256);
    } else {
      IndexRepeats(k - 1);
      assert IndexAfter(k + 256) == Increment(IndexAfter(k - 1 + 256));
    }
  }
}
