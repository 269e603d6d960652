/** packages/adaptorch-wpl/src/retry-backoff.ts: the FNV-1a hash of a packet id and the jittered exponential delay. */
module Backoff {
  import opened Strings

  // ---------------------------------------------------------------- fnv1a32

  /** A 32-bit unsigned integer and a UTF-16 code unit. */
  type Word = w: int | 0 <= w < 0x1_0000_0000
  type Unit = u: int | 0 <= u < 0x1_0000

  const OFFSET_BASIS: Word := 0x811c9dc5
  const PRIME := 0x01000193
  const INVERSE := 0x359c449b
  const WORDS := 0x1_0000_0000

  function Pow2(n: nat): (p: int)
    ensures p > 0
  {
    if n == 0 then 1 else 2 * Pow2(n - 1)
  }

  /** Bitwise exclusive or of the low bits. */
  function Xor(a: nat, b: nat, bits: nat): (r: nat)
    ensures r < Pow2(bits)
  {
    if bits == 0 then 0 else 2 * Xor(a / 2, b / 2, bits - 1) + (a % 2 + b % 2) % 2
  }

  lemma Halves(y: nat, bit: nat)
    requires bit < 2
    ensures (2 * y + bit) / 2 == y && (2 * y + bit) % 2 == bit
  {
  }

  lemma BitTwice(p: nat, q: nat)
    requires p < 2 && q < 2
    ensures ((p + q) % 2 + q) % 2 == p
  {
  }

  lemma {:induction false} XorUndone(a: nat, b: nat, bits: nat)
    requires a < Pow2(bits)
    ensures Xor(Xor(a, b, bits), b, bits) == a
  {
    if bits > 0 {
      var y, bit := Xor(a / 2, b / 2, bits - 1), (a % 2 + b % 2) % 2;
      assert Xor(a, b, bits) == 2 * y + bit;
      Halves(y, bit);
      XorUndone(a / 2, b / 2, bits - 1);
      BitTwice(a % 2, b % 2);
    }
  }

  lemma {:induction false} XorSymmetric(a: nat, b: nat, bits: nat)
    ensures Xor(a, b, bits) == Xor(b, a, bits)
  {
    if bits > 0 { XorSymmetric(a / 2, b / 2, bits - 1); }
  }

  lemma Doublings()
    ensures Pow2(32) == WORDS
  {
    assert Pow2(4) == 0x10;
    assert Pow2(8) == 0x100;
    assert Pow2(12) == 0x1000;
    assert Pow2(16) == 0x1_0000;
    assert Pow2(20) == 0x10_0000;
    assert Pow2(24) == 0x100_0000;
    assert Pow2(28) == 0x1000_0000;
  }

  /** Math.imul: the product modulo 2^32. */
  function TimesPrime(x: nat): Word {
    (x * PRIME) % WORDS
  }

  /** One code unit: exclusive or, then times the FNV prime. */
  function HashStep(hash: Word, unit: Unit): Word {
    TimesPrime(Xor(hash, unit, 32))
  }

  function HashFrom(hash: Word, units: seq<Unit>): Word
    decreases |units|
  {
    if |units| == 0 then hash else HashFrom(HashStep(hash, units[0]), units[1..])
  }

  method Fnv1a32(units: seq<Unit>) returns (hash: Word)
    ensures hash == HashFrom(OFFSET_BASIS, units)
  {
    hash := OFFSET_BASIS;
    assert units[0..] == units;
    for i := 0 to |units|
      invariant HashFrom(hash, units[i..]) == HashFrom(OFFSET_BASIS, units)
    {
      assert units[i..][1..] == units[i + 1..];
      hash := HashStep(hash, units[i]);
    }
  }

  /** The prime is odd, so it has an inverse modulo 2^32 and multiplying by it loses nothing. */
  lemma TimesPrimeUndone(x: Word)
    ensures (TimesPrime(x) * INVERSE) % WORDS == x
  {
    var product, quotient := x * PRIME, (x * PRIME) / WORDS;
    assert product == quotient * WORDS + product % WORDS;
    Unroll(x, quotient, TimesPrime(x));
    Remainder(x, 3513497 * x - quotient * INVERSE, TimesPrime(x) * INVERSE);
  }

  lemma Unroll(x: int, quotient: int, remainder: int)
    requires x * PRIME == quotient * WORDS + remainder
    ensures remainder * INVERSE == x + WORDS * (3513497 * x - quotient * INVERSE)
  {
    assert PRIME * INVERSE == 1 + 3513497 * WORDS;
  }

  lemma Remainder(x: Word, k: int, y: int)
    requires y == x + WORDS * k
    ensures y % WORDS == x
  {
  }

  /** Each step is injective in the hash so far, and in the unit. */
  lemma StepInjective(a: Word, b: Word, u: Unit, v: Unit)
    ensures HashStep(a, u) == HashStep(b, u) <==> a == b
    ensures HashStep(a, u) == HashStep(a, v) <==> u == v
  {
    Doublings();
    TimesPrimeUndone(Xor(a, u, 32));
    TimesPrimeUndone(Xor(b, u, 32));
    TimesPrimeUndone(Xor(a, v, 32));
    XorUndone(a, u, 32);
    XorUndone(b, u, 32);
    XorSymmetric(a, u, 32);
    XorSymmetric(a, v, 32);
    XorUndone(u, a, 32);
    XorUndone(v, a, 32);
  }

  lemma {:induction false} SameUnitsKeepDifference(a: Word, b: Word, units: seq<Unit>)
    ensures HashFrom(a, units) == HashFrom(b, units) <==> a == b
    decreases |units|
  {
    if |units| > 0 {
      StepInjective(a, b, units[0], units[0]);
      SameUnitsKeepDifference(HashStep(a, units[0]), HashStep(b, units[0]), units[1..]);
    }
  }

  /** Two ids of equal length that differ in exactly one code unit never share a hash. */
  lemma {:induction false} OneUnitApart(hash: Word, s: seq<Unit>, t: seq<Unit>, k: nat)
    requires |s| == |t| && k < |s| && s[k] != t[k]
    requires forall i :: 0 <= i < |s| && i != k ==> s[i] == t[i]
    ensures HashFrom(hash, s) != HashFrom(hash, t)
    decreases |s|
  {
    StepInjective(hash, hash, s[0], t[0]);
    if k == 0 {
      assert s[1..] == t[1..];
      SameUnitsKeepDifference(HashStep(hash, s[0]), HashStep(hash, t[0]), s[1..]);
    } else {
      OneUnitApart(HashStep(hash, s[0]), s[1..], t[1..], k - 1);
    }
  }

  // ---------------------------------------------------------------- backoffDelayMs

  const HALF: int := 0x8000_0000

  /** A retry count: NaN, an infinity, or a whole number. */
  datatype Retry = NotANumber | MinusInfinity | PlusInfinity | Whole(count: int)

  /** The result in milliseconds; NaN and minus infinity come out of extreme inputs. */
  datatype Delay = Ms(ms: int) | DelayNaN | DelayMinusInfinity

  lemma {:induction false} Pow2Grows(n: nat, m: nat)
    requires n <= m
    ensures Pow2(n) <= Pow2(m)
  {
    if n < m { Pow2Grows(n, m - 1); }
  }

  /** None stands for an exponent at which 2^n overflows to infinity. */
  function Exponent(retry: Retry): Option<nat> {
    match retry
    case PlusInfinity => None
    case Whole(n) => if n < 0 then Some(0) else if n >= 1024 then None else Some(n)
    case _ => Some(0)
  }

  function Initial(initial: int, max: int): int {
    if initial > max then max else initial
  }

  function Min(a: int, b: int): int {
    if a < b then a else b
  }

  /** Math.round of `units` / 2^32. */
  function Round(units: int): int {
    (units + HALF) / WORDS
  }

  /** base * (0.5 + h / 2^32), in units of 2^-32 ms. */
  function Jittered(base: int, h: int): int {
    base * (HALF + h)
  }

  function BackoffDelay(h: int, retry: Retry, initial: int, max: int): Delay {
    var start := Initial(initial, max);
    match Exponent(retry)
    case Some(n) => Ms(Round(Jittered(Min(max, start * Pow2(n)), h)))
    case None =>
      if start == 0 then DelayNaN else if start < 0 then DelayMinusInfinity else Ms(Round(Jittered(max, h)))
  }

  datatype Config = Config(initial: Option<int>, max: Option<int>)

  const DEFAULT_INITIAL_MS := 2000
  const DEFAULT_MAX_MS := 120000

  method BackoffDelayMs(packetId: seq<Unit>, retry: Retry, config: Config) returns (delay: Delay)
    ensures delay == BackoffDelay(
              HashFrom(OFFSET_BASIS, packetId), retry,
              if config.initial.Some? then config.initial.value else DEFAULT_INITIAL_MS,
              if config.max.Some? then config.max.value else DEFAULT_MAX_MS)
  {
    var n := retry;
    if n.NotANumber? || n.MinusInfinity? || (n.Whole? && n.count < 0) { n := Whole(0); }
    var initial := if config.initial.Some? then config.initial.value else DEFAULT_INITIAL_MS;
    var max := if config.max.Some? then config.max.value else DEFAULT_MAX_MS;
    if initial > max { initial := max; }
    var h := Fnv1a32(packetId);
    if n.PlusInfinity? || n.count >= 1024 {
      if initial == 0 { return DelayNaN; }
      if initial < 0 { return DelayMinusInfinity; }
      return Ms(Round(Jittered(max, h)));
    }
    var base := Min(max, initial * Pow2(n.count));
    delay := Ms(Round(Jittered(base, h)));
  }

  /** Rounding half up: the one integer whose half-open interval of length one holds the quotient. */
  lemma RoundExact(units: int, d: int)
    ensures d == Round(units) <==> (2 * d - 1) * HALF <= units < (2 * d + 1) * HALF
  {
  }

  /** The base: the exponential, capped. */
  function BaseOf(n: nat, initial: int, max: int): int {
    Min(max, Initial(initial, max) * Pow2(n))
  }

  /** For whole retry counts the delay is exactly base * (2^31 + h) / 2^32 rounded half up, also where 2^n overflows;
      only a zero base is then NaN. `max` is below 2^1024, as every finite double is. */
  lemma DelayExact(h: int, n: nat, initial: int, max: int, d: int)
    requires 0 <= initial && 0 <= max < Pow2(1024)
    ensures BackoffDelay(h, Whole(n), initial, max).DelayNaN? <==> Initial(initial, max) == 0 && n >= 1024
    ensures BackoffDelay(h, Whole(n), initial, max) == Ms(d) <==>
            && !(Initial(initial, max) == 0 && n >= 1024)
            && (2 * d - 1) * HALF <= Jittered(BaseOf(n, initial, max), h) < (2 * d + 1) * HALF
  {
    var start := Initial(initial, max);
    if n >= 1024 && start > 0 {
      Pow2Grows(1024, n);
      Multiply(1, start, Pow2(n));
      assert BaseOf(n, initial, max) == max;
    }
    RoundExact(Jittered(BaseOf(n, initial, max), h), d);
  }

  lemma Multiply(a: int, b: int, c: int)
    requires a <= b && 0 <= c
    ensures a * c <= b * c
  {
  }

  predicate NoLess(earlier: Delay, later: Delay) {
    earlier.Ms? && later.Ms? ==> earlier.ms <= later.ms
  }

  /** Over the retries whose delay is a number the delay never falls, exactly when the first delay is not negative
      by its settings. */
  lemma DelayMonotone(h: int, initial: int, max: int)
    requires 0 <= h < WORDS && max < Pow2(1024)
    ensures (forall n: nat, m: nat :: n <= m ==>
               NoLess(BackoffDelay(h, Whole(n), initial, max), BackoffDelay(h, Whole(m), initial, max))) <==>
            Initial(initial, max) >= 0
  {
    var start := Initial(initial, max);
    if start >= 0 {
      forall n: nat, m: nat | n <= m
        ensures NoLess(BackoffDelay(h, Whole(n), initial, max), BackoffDelay(h, Whole(m), initial, max))
      {
        DelayGrows(h, n, m, initial, max);
      }
    } else {
      Falls(h, start);
      assert Pow2(0) == 1 && Pow2(1) == 2 && Pow2(2) == 4;
      assert !NoLess(BackoffDelay(h, Whole(0), initial, max), BackoffDelay(h, Whole(2), initial, max));
    }
  }

  lemma DelayGrows(h: int, n: nat, m: nat, initial: int, max: int)
    requires 0 <= h < WORDS && max < Pow2(1024) && Initial(initial, max) >= 0 && n <= m
    ensures NoLess(BackoffDelay(h, Whole(n), initial, max), BackoffDelay(h, Whole(m), initial, max))
  {
    var start := Initial(initial, max);
    Pow2Grows(n, m);
    hide Pow2, Round, Jittered;
    Multiply(Pow2(n), Pow2(m), start);
    var low, high := Min(max, start * Pow2(n)), Min(max, start * Pow2(m));
    JitterGrows(low, high, h);
    if n < 1024 && start > 0 { JitterGrows(low, max, h); }
  }

  lemma JitterGrows(low: int, high: int, h: int)
    requires 0 <= h < WORDS && low <= high
    ensures Round(Jittered(low, h)) <= Round(Jittered(high, h))
  {
    Multiply(low, high, HALF + h);
    RoundGrows(Jittered(low, h), Jittered(high, h));
  }

  lemma RoundGrows(a: int, b: int)
    requires a <= b
    ensures Round(a) <= Round(b)
  {
  }

  lemma Falls(h: int, start: int)
    requires 0 <= h < WORDS && start < 0
    ensures Round(Jittered(start * 4, h)) < Round(Jittered(start * 1, h))
  {
    Multiply(start, -1, HALF + h);
    assert Jittered(start * 4, h) == 4 * Jittered(start, h);
    assert Jittered(start, h) <= -HALF;
  }

  /** Once the base is capped the delay no longer changes. */
  lemma DelayCapped(h: int, n: nat, m: nat, initial: int, max: int)
    requires 0 < initial && 0 < max && n <= m && BaseOf(n, initial, max) == max
    ensures BackoffDelay(h, Whole(m), initial, max) == BackoffDelay(h, Whole(n), initial, max) == Ms(Round(Jittered(max, h)))
  {
    hide Pow2, Round, Jittered;
    var start := Initial(initial, max);
    Pow2Grows(n, m);
    Multiply(Pow2(n), Pow2(m), start);
    assert BaseOf(m, initial, max) == max;
    CappedDelay(h, n, initial, max);
    CappedDelay(h, m, initial, max);
  }

  lemma CappedDelay(h: int, n: nat, initial: int, max: int)
    requires 0 < initial && 0 < max && BaseOf(n, initial, max) == max
    ensures BackoffDelay(h, Whole(n), initial, max) == Ms(Round(Jittered(max, h)))
  {
    hide Pow2, Round, Jittered;
  }

  /** Within rounding of half to three halves of the base. */
  lemma DelayBounds(h: int, n: nat, initial: int, max: int, d: int)
    requires 0 <= h < WORDS && 0 <= initial && 0 <= max < Pow2(1024)
    requires BackoffDelay(h, Whole(n), initial, max) == Ms(d)
    ensures BaseOf(n, initial, max) - 1 <= 2 * d <= 3 * BaseOf(n, initial, max) + 1
  {
    DelayExact(h, n, initial, max, d);
    var base := BaseOf(n, initial, max);
    assert base >= 0 by { Multiply(0, Initial(initial, max), Pow2(n)); }
    Multiply(HALF, HALF + h, base);
    Multiply(HALF + h, 3 * HALF, base);
  }

  /** Up to this base every product above is below 2^53, so doubles hold it exactly. */
  lemma ProductFits(base: int, h: int)
    requires 0 <= base <= 1398101 && 0 <= h < WORDS
    ensures Jittered(base, h) < 0x20_0000_0000_0000
  {
    Multiply(HALF + h, 3 * HALF - 1, base);
    Multiply(base, 1398101, 3 * HALF - 1);
  }
}
