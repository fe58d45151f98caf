/** The publisher's retry delay: a power of two seconds in wrapping 64-bit nanoseconds, capped at five minutes. */
module Backoff {
  import opened Int64

  const SECOND: int := 1_000_000_000
  const MAX_BACKOFF: int := 300 * SECOND

  function Pow2(n: nat): (r: nat)
    ensures r >= 1
  {
    if n == 0 then 1 else 2 * Pow2(n - 1)
  }

  /** What a processor makes of a float that is too large for an int64: the least value, or the greatest. */
  datatype Processor = Indefinite | Saturating

  /** The conversion of the power of two, a float, to an int64; 2^62 is the largest one that fits. */
  function Converted(attempts: nat, p: Processor): int64 {
    if attempts <= 62 then Wrap(Pow2(attempts)) else if p == Indefinite then MIN else MAX
  }

  /** The delay before the next attempt. */
  function Delay(attempts: nat, p: Processor): int {
    var d := Wrap(Converted(attempts, p) * SECOND);
    if d > MAX_BACKOFF || d <= 0 then MAX_BACKOFF else d
  }

  /** Two to the power of the attempts in seconds, and never more than five minutes. */
  function Capped(attempts: nat): int {
    (if Pow2(attempts) < 300 then Pow2(attempts) else 300) * SECOND
  }

  lemma {:induction false} Pow2Sums(a: nat, b: nat)
    ensures Pow2(a + b) == Pow2(a) * Pow2(b)
  {
    if a > 0 {
      Pow2Sums(a - 1, b);
      assert Pow2(a + b) == 2 * Pow2(a - 1 + b);
    }
  }

  lemma {:induction false} Pow2Grows(a: nat, b: nat)
    requires a <= b
    ensures Pow2(a) <= Pow2(b)
  {
    if a < b {
      Pow2Grows(a, b - 1);
    }
  }

  lemma Pow2Values()
    ensures Pow2(8) == 256 && Pow2(9) == 512 && Pow2(33) == 0x2_0000_0000 && Pow2(34) == 0x4_0000_0000
  {
    assert Pow2(4) == 16;
    assert Pow2(8) == 256;
    assert Pow2(9) == 512;
    Pow2Sums(8, 8);
    Pow2Sums(16, 16);
    assert Pow2(33) == 2 * Pow2(32);
    assert Pow2(34) == 2 * Pow2(33);
  }

  const GRAIN: int := 0x800_0000_0000   // 2^43

  /** A product that may wrap is a multiple of 2^43 nanoseconds, before and after wrapping. */
  lemma WrappedIsCoarse(n: nat) returns (q: int)
    requires n >= 34
    ensures Wrap(Pow2(n) * SECOND) == q * GRAIN
  {
    Pow2Sums(34, n - 34);
    Pow2Values();
    var p := Pow2(n - 34);
    assert Pow2(n) * SECOND == p * 1953125 * GRAIN by {
      assert Pow2(n) == 0x4_0000_0000 * p;
      assert 0x4_0000_0000 * SECOND == 1953125 * GRAIN;
      ScaleBoth(p, 0x4_0000_0000, SECOND, 1953125 * GRAIN);
    }
    var x := Pow2(n) * SECOND;
    var k := (x - MIN) / SPAN;
    assert x - MIN == k * SPAN + (x - MIN) % SPAN;
    assert SPAN == 0x20_0000 * GRAIN;
    q := p * 1953125 - k * 0x20_0000;
    CoarseDifference(p * 1953125, k * 0x20_0000, k);
  }

  lemma ScaleBoth(p: int, a: int, b: int, c: int)
    requires a * b == c
    ensures (a * p) * b == p * c
  {
    calc {
      (a * p) * b;
      p * (a * b);
      p * c;
    }
  }

  lemma CoarseDifference(a: int, b: int, k: int)
    requires b == k * 0x20_0000
    ensures (a - b) * GRAIN == a * GRAIN - k * SPAN
  {
  }

  /** So a wrapped product is never a small positive delay. */
  lemma WrappedIsNotSmall(n: nat)
    requires n >= 34
    ensures var d := Wrap(Pow2(n) * SECOND); d <= 0 || d > MAX_BACKOFF
  {
    var q := WrappedIsCoarse(n);
    if q >= 1 {
      assert q * GRAIN >= GRAIN > MAX_BACKOFF;
    }
  }

  /** What does not fit comes out of the multiplication as zero or one second below it. */
  lemma TooLarge()
    ensures Wrap(MIN * SECOND) == 0 && Wrap(MAX * SECOND) == -SECOND
  {
  }

  lemma LargestFitting()
    ensures Pow2(62) == 0x4000_0000_0000_0000
  {
    Pow2Values();
    assert Pow2(2) == 4 && Pow2(33) == 2 * Pow2(32);
    Pow2Sums(30, 2);
    Pow2Sums(32, 30);
    hide Pow2;
    assert Pow2(30) == 0x4000_0000 && Pow2(32) == 0x1_0000_0000;
  }

  lemma SmallConverts(n: nat, p: Processor)
    requires n <= 62
    ensures Converted(n, p) == Pow2(n)
  {
    hide Pow2;
    LargestFitting();
    Pow2Grows(n, 62);
    assert Fits(Pow2(n));
  }

  /** For every number of attempts, on either kind of processor, the delay is exactly min(2^n, 300) seconds: wrap-around
      and the conversion of what does not fit included. */
  lemma DelayExact(n: nat, p: Processor)
    ensures Delay(n, p) == Capped(n)
  {
    Pow2Values();
    if n > 62 {
      TooLarge();
      Pow2Grows(9, n);
    } else {
      SmallConverts(n, p);
      FittingDelay(n, p);
    }
  }

  lemma FittingDelay(n: nat, p: Processor)
    requires n <= 62 && Converted(n, p) == Pow2(n)
    ensures Delay(n, p) == Capped(n)
  {
    hide Converted;
    Pow2Values();
    if n <= 8 {
      Pow2Grows(n, 8);
      assert Fits(Pow2(n) * SECOND);
    } else {
      Pow2Grows(9, n);
      if n <= 33 {
        Pow2Grows(n, 33);
        assert Fits(Pow2(n) * SECOND);
      } else {
        WrappedIsNotSmall(n);
      }
    }
  }

  lemma DelayMonotone(a: nat, b: nat, p: Processor, q: Processor)
    requires a <= b
    ensures SECOND <= Delay(a, p) <= Delay(b, q) <= MAX_BACKOFF
  {
    DelayExact(a, p);
    DelayExact(b, q);
    Pow2Grows(a, b);
  }
}
