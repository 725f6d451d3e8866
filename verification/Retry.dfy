/** The Retry Budget: how long a Delivery waits before its next attempt, and
    whether there is room for one. Durations are int64 nanoseconds, so every
    product is taken modulo 2^64 exactly as Go takes it. */
module Retry {

  const MAX_INT64: int := 0x7fff_ffff_ffff_ffff
  const MIN_INT64: int := -0x8000_0000_0000_0000
  const TWO_TO_64: int := 0x1_0000_0000_0000_0000

  const MINUTE: int := 60_000_000_000
  const HOUR: int := 60 * MINUTE

  /** The int64 that two's-complement arithmetic leaves of x. */
  function Wrap(x: int): (r: int)
    ensures MIN_INT64 <= r <= MAX_INT64
    ensures MIN_INT64 <= x <= MAX_INT64 ==> r == x
  {
    x - (x - MIN_INT64) / TWO_TO_64 * TWO_TO_64
  }

  function Pow2(n: nat): (p: nat)
    ensures p >= 1
  {
    if n == 0 then 1 else 2 * Pow2(n - 1)
  }

  /** What converting a float64 too large for int64 yields. The language leaves
      it to the implementation; the two answers in use are these. */
  datatype Overflow = Indefinite | Saturating {
    function Value(): int {
      if Indefinite? then MIN_INT64 else MAX_INT64
    }
  }

  /** time.Duration(math.Pow(2, attempts)): exact while the power fits. */
  function PowAsDuration(attempts: nat, overflow: Overflow): int {
    if attempts <= 62 then Pow2(attempts) else overflow.Value()
  }

  datatype Backoff = Backoff(base: int, min: int) {
    function Delay(attempts: nat, overflow: Overflow): int {
      var delay := Wrap(base * PowAsDuration(attempts, overflow));
      if delay < min then min else delay
    }
  }

  const DEFAULT_BACKOFF := Backoff(2 * MINUTE, 5 * MINUTE)
  const DEFAULT_RETRY_WINDOW: int := 24 * HOUR

  /** Everything the repository applies to a Delivery it rehydrates. */
  datatype Policy = Policy(backoff: Backoff, window: int, overflow: Overflow) {
    function Delay(attempts: nat): int {
      backoff.Delay(attempts, overflow)
    }

    function NextRetryAt(original: int, attempts: nat): int {
      original + Delay(attempts)
    }

    /** The next retry still falls inside the window. Both instants are measured
        from the original scheduled time. */
    predicate CanRetryAt(original: int, attempts: nat) {
      NextRetryAt(original, attempts) < original + Window()
    }

    predicate CanRetry(attempts: nat) {
      CanRetryAt(0, attempts)
    }

    function Window(): int {
      if window <= 0 then DEFAULT_RETRY_WINDOW else window
    }
  }

  function DefaultPolicy(overflow: Overflow): Policy {
    Policy(DEFAULT_BACKOFF, DEFAULT_RETRY_WINDOW, overflow)
  }

  /** The verdict is a function of the attempt tally: no instant enters it. */
  lemma CanRetryIgnoresTheClock(p: Policy, original: int, attempts: nat)
    ensures p.CanRetryAt(original, attempts) == p.CanRetry(attempts)
  {
  }

  /** The mathematical curve the code means to compute. */
  function IntendedDelay(attempts: nat): int {
    var d := 2 * MINUTE * Pow2(attempts);
    if d < 5 * MINUTE then 5 * MINUTE else d
  }

  lemma {:induction false} Pow2Grows(m: nat, n: nat)
    requires m <= n
    ensures Pow2(m) <= Pow2(n)
  {
    if m < n {
      Pow2Grows(m, n - 1);
    }
  }

  lemma Pow2At26()
    ensures Pow2(26) == 0x400_0000
  {
    assert Pow2(13) == 0x2000;
    assert Pow2(26) == 0x400_0000;
  }

  /** For every policy and tally: the next attempt is due the backoff's delay after the
      original time, and there is one exactly when that is shorter than the window, a
      day where none is set. */
  lemma RetriesAreBackedOff(p: Policy, original: int, attempts: nat)
    ensures p.NextRetryAt(original, attempts) == original + p.backoff.Delay(attempts, p.overflow)
    ensures p.CanRetryAt(original, attempts) <==>
      p.backoff.Delay(attempts, p.overflow) < if p.window > 0 then p.window else 24 * 60 * MINUTE
  {
  }

  /** While the product fits an int64, the delay is the base doubled once per attempt,
      and the least delay where that is less. */
  lemma DelayDoubles(b: Backoff, attempts: nat, overflow: Overflow)
    requires attempts <= 62 && MIN_INT64 <= b.base * Pow2(attempts) <= MAX_INT64
    ensures b.Delay(attempts, overflow) >= b.min
    ensures b.Delay(attempts, overflow) == b.min || b.Delay(attempts, overflow) == b.base * Pow2(attempts)
    ensures b.Delay(attempts, overflow) >= b.base * Pow2(attempts)
  {
  }

  /** From 63 attempts on the power no longer fits an int64, and the delay stays what the
      conversion gives. */
  lemma DelayStaysFrom63(b: Backoff, attempts: nat, overflow: Overflow)
    requires attempts >= 63
    ensures b.Delay(attempts, overflow) == b.Delay(63, overflow)
    ensures b.base == 1 && b.min == MIN_INT64 ==> b.Delay(attempts, overflow) == if overflow.Indefinite? then MIN_INT64 else MAX_INT64
  {
  }

  /** The retries the budget grants under the defaults, in minutes after the original
      time. */
  const MINUTES: seq<nat> := [5, 5, 8, 16, 32, 64, 128, 256, 512, 1024]

  lemma DefaultRetries(original: int, attempts: nat, overflow: Overflow)
    ensures attempts <= 26 ==> DefaultPolicy(overflow).NextRetryAt(original, attempts) == original + IntendedDelay(attempts)
    ensures attempts < |MINUTES| ==> DefaultPolicy(overflow).NextRetryAt(original, attempts) == original + MINUTES[attempts] * MINUTE
  {
    DelayIsExactUpTo26(attempts, overflow);
    if attempts < |MINUTES| {
      assert attempts == 0 || attempts == 1 || attempts == 2 || attempts == 3 || attempts == 4
        || attempts == 5 || attempts == 6 || attempts == 7 || attempts == 8 || attempts == 9;
    }
  }

  /** The int64 computation gives the intended delay up to 26 attempts and for
      no tally beyond. */
  lemma DelayIsExactUpTo26(attempts: nat, overflow: Overflow)
    ensures DEFAULT_BACKOFF.Delay(attempts, overflow) == IntendedDelay(attempts) <==> attempts <= 26
  {
    Pow2At26();
    if attempts <= 26 {
      Pow2Grows(attempts, 26);
    } else {
      Pow2Grows(27, attempts);
    }
  }

  lemma DelayIsMonotoneUpTo26(m: nat, n: nat, overflow: Overflow)
    requires m <= n <= 26
    ensures DEFAULT_BACKOFF.Delay(m, overflow) <= DEFAULT_BACKOFF.Delay(n, overflow)
  {
    hide Backoff.Delay, Pow2;
    DelayIsExactUpTo26(m, overflow);
    DelayIsExactUpTo26(n, overflow);
    Pow2Grows(m, n);
  }

  /** The tallies past 26 whose wrapped product lands back inside the window. */
  predicate WrapsBackIntoTheWindow(attempts: nat) {
    attempts in {27, 28, 30, 31, 32, 33, 34, 35, 40, 44, 45, 46, 48} || attempts >= 50
  }

  lemma WrapIs(x: int, r: int, k: int)
    requires x == r + k * TWO_TO_64
    requires MIN_INT64 <= r <= MAX_INT64
    ensures Wrap(x) == r
  {
    assert (x - MIN_INT64) / TWO_TO_64 == k;
  }

  lemma {:induction false} Pow2From52(n: nat)
    ensures Pow2(52 + n) == 0x10_0000_0000_0000 * Pow2(n)
  {
    if n == 0 {
      assert Pow2(13) == 0x2000;
      assert Pow2(26) == 0x400_0000;
      assert Pow2(39) == 0x80_0000_0000;
      assert Pow2(52) == 0x10_0000_0000_0000;
    } else {
      Pow2From52(n - 1);
    }
  }

  /** What int64 leaves of 2m * 2^attempts from 50 attempts on: nothing positive. */
  lemma ProductFrom50(attempts: nat, overflow: Overflow)
    requires attempts >= 50
    ensures Wrap(2 * MINUTE * PowAsDuration(attempts, overflow)) <= 0
  {
    Pow2From52(0);
    if attempts == 50 {
      WrapIs(2 * MINUTE * Pow2(50), -0x4000_0000_0000_0000, 7324219);
    } else if attempts == 51 {
      WrapIs(2 * MINUTE * Pow2(51), MIN_INT64, 14648438);
    } else if attempts <= 62 {
      var rest := Pow2(attempts - 52);
      Pow2From52(attempts - 52);
      WrapIs(2 * MINUTE * (0x10_0000_0000_0000 * rest), 0, 29296875 * rest);
    } else if overflow.Indefinite? {
      WrapIs(2 * MINUTE * MIN_INT64, 0, -60_000_000_000);
    } else {
      WrapIs(2 * MINUTE * MAX_INT64, -2 * MINUTE, 60_000_000_000);
    }
  }

  /** Doubling an int64. */
  function Doubled(w: int): int {
    if 2 * w > MAX_INT64 then 2 * w - TWO_TO_64 else if 2 * w < MIN_INT64 then 2 * w + TWO_TO_64 else 2 * w
  }

  /** 2m * 2^(27 + n), computed by doubling what int64 leaves of 2m * 2^27. */
  function WrappedProduct(n: nat): int {
    if n == 0 then -2340616713709551616 else Doubled(WrappedProduct(n - 1))
  }

  lemma WrapOfADouble(x: int)
    requires MIN_INT64 <= Wrap(x) <= MAX_INT64
    ensures Wrap(2 * x) == Doubled(Wrap(x))
  {
    var w, k := Wrap(x), (x - MIN_INT64) / TWO_TO_64;
    WrapIs(2 * x, Doubled(w), 2 * k + if 2 * w > MAX_INT64 then 1 else if 2 * w < MIN_INT64 then -1 else 0);
  }

  lemma {:induction false} ProductWraps(n: nat)
    ensures Wrap(2 * MINUTE * Pow2(27 + n)) == WrappedProduct(n)
  {
    if n == 0 {
      Pow2At26();
      assert Pow2(27) == 0x800_0000;
    } else {
      ProductWraps(n - 1);
      var x := 2 * MINUTE * Pow2(26 + n);
      WrapOfADouble(x);
      assert 2 * MINUTE * Pow2(27 + n) == 2 * x;
    }
  }

  lemma WrappedVerdict(n: nat)
    requires n <= 22
    ensures WrappedProduct(n) < DEFAULT_RETRY_WINDOW <==> WrapsBackIntoTheWindow(27 + n)
    ensures WrappedProduct(n) >= 5 * MINUTE || WrapsBackIntoTheWindow(27 + n)
  {
    assert WrappedProduct(0) == -2340616713709551616;
    assert WrappedProduct(1) == -4681233427419103232;
    assert WrappedProduct(2) == 9084277218871345152;
    assert WrappedProduct(3) == -278189635966861312;
    assert WrappedProduct(4) == -556379271933722624;
    assert WrappedProduct(5) == -1112758543867445248;
    assert WrappedProduct(6) == -2225517087734890496;
    assert WrappedProduct(7) == -4451034175469780992;
    assert WrappedProduct(8) == -8902068350939561984;
    assert WrappedProduct(9) == 642607371830427648;
    assert WrappedProduct(10) == 1285214743660855296;
    assert WrappedProduct(11) == 2570429487321710592;
    assert WrappedProduct(12) == 5140858974643421184;
    assert WrappedProduct(13) == -8165026124422709248;
    assert WrappedProduct(14) == 2116691824864133120;
    assert WrappedProduct(15) == 4233383649728266240;
    assert WrappedProduct(16) == 8466767299456532480;
    assert WrappedProduct(17) == -1513209474796486656;
    assert WrappedProduct(18) == -3026418949592973312;
    assert WrappedProduct(19) == -6052837899185946624;
    assert WrappedProduct(20) == 6341068275337658368;
    assert WrappedProduct(21) == -5764607523034234880;
    assert WrappedProduct(22) == 6917529027641081856;
  }

  /** The verdict under the defaults, for every tally: ten attempts and no more,
      until the product wraps. A tally pushed to 27 is told it may be retried. */
  lemma CanRetryExactly(attempts: nat, overflow: Overflow)
    ensures DefaultPolicy(overflow).CanRetry(attempts) <==> attempts <= 9 || WrapsBackIntoTheWindow(attempts)
  {
    if attempts <= 26 {
      DelayIsExactUpTo26(attempts, overflow);
      assert Pow2(9) == 512 && Pow2(10) == 1024;
      if attempts <= 9 {
        Pow2Grows(attempts, 9);
      } else {
        Pow2Grows(10, attempts);
      }
    } else if attempts <= 49 {
      ProductWraps(attempts - 27);
      WrappedVerdict(attempts - 27);
    } else {
      ProductFrom50(attempts, overflow);
    }
  }
}
