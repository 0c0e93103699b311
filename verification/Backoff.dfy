/** The retry delay of internal/worker/pool.go and the whole-second scores of the
    Redis sorted set. Instants and durations are nanoseconds. */
module Backoff {

  const SECOND: int := 1_000_000_000
  const CAP: int := 300 * SECOND
  const TWO_63: int := 0x8000_0000_0000_0000
  const TWO_64: int := 0x1_0000_0000_0000_0000

  /** Two's complement int64, the representation of time.Duration. */
  function Wrap64(x: int): int {
    (x + TWO_63) % TWO_64 - TWO_63
  }

  function Pow2(k: nat): nat {
    if k == 0 then 1 else 2 * Pow2(k - 1)
  }

  /** time.Duration(1 << k) * 5 * time.Second: the shift and both products wrap around. */
  function Nanos(k: nat): int {
    Wrap64(Wrap64(Wrap64(Pow2(k)) * 5) * SECOND)
  }

  /** The delay before retry `k`. */
  function Delay(k: nat): int {
    if Nanos(k) > CAP then CAP else Nanos(k)
  }

  /** The documented delay of min(5 * 2^k, 300) seconds, over unbounded integers. */
  function IdealDelay(k: nat): int {
    var seconds := 5 * Pow2(k);
    1_000_000_000 * if seconds > 300 then 300 else seconds
  }

  /** time.Time.Unix: whole seconds, rounded down. */
  function Secs(t: int): int {
    t / SECOND
  }

  // ---- where the two delays agree ----

  /** The exponents above 30 whose product wraps around to something still above the cap. */
  const LUCKY: set<nat> := {32, 33, 35, 37, 39, 40, 41, 42, 43, 44, 46, 52, 53}

  lemma WrapMultiple(x: int, n: int)
    ensures Wrap64(x + TWO_64 * n) == Wrap64(x)
  {
    var y := x + TWO_63;
    var z := y + TWO_64 * n;
    assert y == y / TWO_64 * TWO_64 + y % TWO_64 && z == z / TWO_64 * TWO_64 + z % TWO_64;
    assert z % TWO_64 - y % TWO_64 == TWO_64 * (y / TWO_64 + n - z / TWO_64);
  }

  /** A wrapped factor does not change a wrapped product. */
  lemma WrapProduct(x: int, c: int)
    ensures Wrap64(Wrap64(x) * c) == Wrap64(x * c)
  {
    var q := (x + TWO_63) / TWO_64;
    assert Wrap64(x) == x - TWO_64 * q;
    assert Wrap64(x) * c == x * c + TWO_64 * (-q * c);
    WrapMultiple(x * c, -q * c);
  }

  /** One wrap-around at the end is as good as three. */
  lemma OneWrap(k: nat)
    ensures Nanos(k) == Wrap64(Pow2(k) * 5 * SECOND)
  {
    WrapProduct(Pow2(k), 5);
    WrapProduct(Pow2(k) * 5, SECOND);
  }

  lemma Doubling(k: nat)
    ensures Nanos(k + 1) == Wrap64(2 * Nanos(k))
  {
    OneWrap(k);
    OneWrap(k + 1);
    WrapProduct(Pow2(k) * 5 * SECOND, 2);
  }

  lemma {:induction false} Grows(k: nat, l: nat)
    requires k <= l
    ensures 0 < Pow2(k) <= Pow2(l)
    decreases l
  {
    if k < l { Grows(k, l - 1); } else if k > 0 { Grows(k - 1, k - 1); }
  }

  lemma SixDoublings(k: nat)
    ensures Pow2(k + 6) == 64 * Pow2(k)
  {
    assert Pow2(k + 2) == 4 * Pow2(k);
    assert Pow2(k + 4) == 4 * Pow2(k + 2);
  }

  /** The thirtieth power of two is still far from the int64 bound. */
  lemma SmallPower(k: nat)
    requires k <= 30
    ensures 0 < Pow2(k) <= 0x4000_0000
    ensures k == 30 ==> Pow2(k) == 0x4000_0000
  {
    Grows(k, 30);
    SixDoublings(0); SixDoublings(6); SixDoublings(12); SixDoublings(18); SixDoublings(24);
  }

  lemma InRange(x: int)
    requires -TWO_63 <= x < TWO_63
    ensures Wrap64(x) == x
  {
  }

  lemma ExactProduct(k: nat)
    requires k <= 30
    ensures Nanos(k) == Pow2(k) * 5 * SECOND
  {
    OneWrap(k);
    SmallPower(k);
    InRange(Pow2(k) * 5 * SECOND);
  }

  /** The product after `k` when one turn of the int64 circle is lost or won at most. */
  lemma NextIs(k: nat, x: int, y: int)
    requires Nanos(k) == x && -TWO_63 <= y < TWO_63
    requires y == 2 * x || y == 2 * x - TWO_64 || y == 2 * x + TWO_64
    ensures Nanos(k + 1) == y
  {
    Doubling(k);
  }

  /** The products from 31 to 36, `k` being 30. */
  lemma Products31(k: nat)
    requires Nanos(k) == 5368709120000000000
    ensures Nanos(k + 1) < 0 && Nanos(k + 2) > CAP && Nanos(k + 3) > CAP
    ensures Nanos(k + 4) < 0 && Nanos(k + 5) > CAP
    ensures Nanos(k + 6) == -6890753720481480704
  {
    NextIs(k, 5368709120000000000, -7709325833709551616);
    NextIs(k + 1, -7709325833709551616, 3028092406290448384);
    NextIs(k + 2, 3028092406290448384, 6056184812580896768);
    NextIs(k + 3, 6056184812580896768, -6334374448547758080);
    NextIs(k + 4, -6334374448547758080, 5777995176614035456);
    NextIs(k + 5, 5777995176614035456, -6890753720481480704);
  }

  /** The products from 37 to 42, `k` being 36. */
  lemma Products37(k: nat)
    requires Nanos(k) == -6890753720481480704
    ensures Nanos(k + 1) > CAP && Nanos(k + 2) < 0 && Nanos(k + 3) > CAP
    ensures Nanos(k + 4) > CAP && Nanos(k + 5) > CAP
    ensures Nanos(k + 6) == 1713619658214473728
  {
    NextIs(k, -6890753720481480704, 4665236632746590208);
    NextIs(k + 1, 4665236632746590208, -9116270808216371200);
    NextIs(k + 2, -9116270808216371200, 214202457276809216);
    NextIs(k + 3, 214202457276809216, 428404914553618432);
    NextIs(k + 4, 428404914553618432, 856809829107236864);
    NextIs(k + 5, 856809829107236864, 1713619658214473728);
  }

  /** The products from 43 to 48, `k` being 42. */
  lemma Products43(k: nat)
    requires Nanos(k) == 1713619658214473728
    ensures Nanos(k + 1) > CAP && Nanos(k + 2) > CAP && Nanos(k + 3) < 0
    ensures Nanos(k + 4) > CAP && Nanos(k + 5) < 0
    ensures Nanos(k + 6) == -1008806316530991104
  {
    NextIs(k, 1713619658214473728, 3427239316428947456);
    NextIs(k + 1, 3427239316428947456, 6854478632857894912);
    NextIs(k + 2, 6854478632857894912, -4737786807993761792);
    NextIs(k + 3, -4737786807993761792, 8971170457722028032);
    NextIs(k + 4, 8971170457722028032, -504403158265495552);
    NextIs(k + 5, -504403158265495552, -1008806316530991104);
  }

  /** The products from 49 to 55, `k` being 48. */
  lemma Products49(k: nat)
    requires Nanos(k) == -1008806316530991104
    ensures Nanos(k + 1) < 0 && Nanos(k + 2) < 0 && Nanos(k + 3) < 0
    ensures Nanos(k + 4) > CAP && Nanos(k + 5) > CAP && Nanos(k + 6) < 0
    ensures Nanos(k + 7) == 0
  {
    NextIs(k, -1008806316530991104, -2017612633061982208);
    NextIs(k + 1, -2017612633061982208, -4035225266123964416);
    NextIs(k + 2, -4035225266123964416, -8070450532247928832);
    NextIs(k + 3, -8070450532247928832, 2305843009213693952);
    NextIs(k + 4, 2305843009213693952, 4611686018427387904);
    NextIs(k + 5, 4611686018427387904, -9223372036854775808);
    NextIs(k + 6, -9223372036854775808, 0);
  }

  /** The twelve products after the thirtieth, `k` being 30. */
  lemma WrappedEarly(k: nat, n: nat)
    requires Nanos(k) == 5368709120000000000 && 0 < n <= 12
    ensures Nanos(k + n) > CAP <==> 30 + n in LUCKY
    ensures Nanos(k + n) != CAP
    ensures n == 12 ==> Nanos(k + n) == 1713619658214473728
  {
    Products31(k);
    Products37(k + 6);
  }

  /** The thirteen after those. */
  lemma WrappedLate(k: nat, n: nat)
    requires Nanos(k) == 1713619658214473728 && 0 < n <= 13
    ensures Nanos(k + n) > CAP <==> 42 + n in LUCKY
    ensures Nanos(k + n) != CAP
    ensures n == 13 ==> Nanos(k + n) == 0
  {
    Products43(k);
    Products49(k + 6);
  }

  lemma AboveThirty(k: nat, thirty: nat)
    requires thirty == 30 < k <= 55
    ensures Nanos(k) > CAP <==> k in LUCKY
    ensures Nanos(k) != CAP
    ensures k == 55 ==> Nanos(k) == 0
  {
    ExactProduct(thirty);
    SmallPower(thirty);
    WrappedEarly(thirty, if k <= 42 then k - thirty else 12);
    if k > 42 { WrappedLate(thirty + 12, k - 42); }
  }

  lemma {:induction false} Vanishes(k: nat)
    requires k >= 55
    ensures Nanos(k) == 0
  {
    if k == 55 {
      AboveThirty(k, 30);
    } else {
      Vanishes(k - 1);
      Doubling(k - 1);
    }
  }

  lemma IdealCapped(k: nat)
    requires k >= 6
    ensures IdealDelay(k) == CAP
  {
    Grows(6, k);
    assert Pow2(6) == 64;
  }

  /** The int64 delay is the documented one exactly for the first thirty-one retries and thirteen
      later ones. */
  lemma DelayIsIdeal(k: nat)
    ensures Delay(k) == IdealDelay(k) <==> k <= 30 || k in LUCKY
  {
    if k <= 30 {
      ExactProduct(k);
    } else {
      if k <= 55 { AboveThirty(k, 30); } else { Vanishes(k); }
      IdealCapped(k);
    }
  }

  /** The three delays in use are 10, 20 and 40 seconds, and from the sixth to the thirtieth it would
      be five minutes. */
  lemma DelaysInNanoseconds(k: nat)
    ensures Delay(1) == 10_000_000_000 && Delay(2) == 20_000_000_000 && Delay(3) == 40_000_000_000
    ensures 6 <= k <= 30 ==> Delay(k) == 300_000_000_000
  {
    ExactProduct(1);
    ExactProduct(2);
    ExactProduct(3);
    if 6 <= k <= 30 {
      DelayIsIdeal(k);
      IdealCapped(k);
    }
  }

  lemma DelayInUse(k: nat)
    requires 1 <= k <= 3
    ensures Delay(k) == if k == 1 then 10_000_000_000 else if k == 2 then 20_000_000_000 else 40_000_000_000
  {
    DelaysInNanoseconds(k);
  }

  /** Unix seconds. */
  lemma WholeSeconds(t: int)
    ensures 1_000_000_000 * Secs(t) <= t < 1_000_000_000 * (Secs(t) + 1)
  {
  }

  /** A wrapped number is the int64 that differs by a multiple of 2^64. */
  lemma WrapsInto64Bits(x: int)
    ensures -9_223_372_036_854_775_808 <= Wrap64(x) <= 9_223_372_036_854_775_807
    ensures (x - Wrap64(x)) % 18_446_744_073_709_551_616 == 0
  {
    var y := x + TWO_63;
    assert y == y / TWO_64 * TWO_64 + y % TWO_64;
    assert x - Wrap64(x) == y / TWO_64 * 18_446_744_073_709_551_616;
  }

  /** The retry delays grow up to the cap and stay there. */
  lemma {:induction false} IdealGrows(k: nat, l: nat)
    requires k <= l
    ensures 5_000_000_000 <= IdealDelay(k) <= IdealDelay(l) <= 300_000_000_000
  {
    Grows(0, k);
    Grows(k, l);
  }
}
