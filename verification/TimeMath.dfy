/** The conversions between milliseconds and ticks, in the widths the macros compute them. */
module TimeMath {
  import opened KernelTypes
  import opened Bits

  /** SERTOS_MS_TO_TICKS: a 64-bit product rounded up, cast to 32 bits. */
  function MsToTicks(ms: nat, rate: nat): (ticks: nat)
    ensures ticks < WORD
  {
    ((ms * rate) % LONG + 999) % LONG / 1000 % WORD
  }

  /** SERTOS_TICKS_TO_MS: a 64-bit product rounded down, cast to 32 bits. */
  function TicksToMs(ticks: nat, rate: nat): (ms: nat)
    requires rate > 0
    ensures ms < WORD
  {
    (ticks * 1000) % LONG / rate % WORD
  }

  lemma ProductFits(a: nat, b: nat)
    requires a < WORD && b < WORD
    ensures a * b <= (WORD - 1) * (WORD - 1)
  {
    assert a * b <= a * (WORD - 1) by { Multiples(WORD - 1 - b, if a == 0 then 1 else a); Scale(a, WORD - 1 - b); }
  }

  lemma Scale(a: nat, d: nat)
    ensures a * d >= 0 && a * (WORD - 1 - d) == a * (WORD - 1) - a * d
  {
  }

  /** The 64-bit intermediate never wraps: only the final cast can lose anything. */
  lemma MsToTicksValue(ms: nat, rate: nat)
    requires ms < WORD && rate < WORD
    ensures MsToTicks(ms, rate) == (ms * rate + 999) / 1000 % WORD
  {
    ProductFits(ms, rate);
    var product := ms * rate;
    hide *;
    NoWrap(product);
    NoWrap(product + 999);
  }

  /** While the product is at most 1000 * (2^32 - 1), and no further, the result is the least
      number of ticks that lasts ms milliseconds. */
  lemma MsToTicksIsLeastIff(ms: nat, rate: nat)
    requires ms < WORD && rate < WORD
    ensures var t := MsToTicks(ms, rate);
            (t * 1000 >= ms * rate && (t > 0 ==> (t - 1) * 1000 < ms * rate)) <==> ms * rate <= 1000 * (WORD - 1)
  {
    MsToTicksValue(ms, rate);
    hide MsToTicks;
    LeastIff(ms * rate);
  }

  lemma LeastIff(x: nat)
    ensures var t := (x + 999) / 1000 % WORD;
            (t * 1000 >= x && (t > 0 ==> (t - 1) * 1000 < x)) <==> x <= 1000 * (WORD - 1)
  {
    DivRem(x + 999, 1000);
  }

  /** A non-zero duration becomes no ticks at all exactly if its product lies within 1000 below
      a multiple of 1000 * 2^32. */
  lemma MsToTicksZeroIff(ms: nat, rate: nat)
    requires 0 < ms < WORD && 0 < rate < WORD
    ensures MsToTicks(ms, rate) == 0 <==> (ms * rate + 999) % (1000 * WORD) < 1000
  {
    MsToTicksValue(ms, rate);
    var x := ms * rate + 999;
    var q, r := x / (1000 * WORD), x % (1000 * WORD);
    assert x == q * (1000 * WORD) + r;
    assert x == (q * WORD + r / 1000) * 1000 + r % 1000;
    ModUnique(x, q * WORD + r / 1000, 1000, r % 1000);
    ModUnique(q * WORD + r / 1000, q, WORD, r / 1000);
  }

  /** At 2000 ticks a second, a delay of 2^31 milliseconds is no delay. */
  lemma LongDelayVanishes()
    ensures MsToTicks(0x8000_0000, 2000) == 0
  {
  }

  lemma QuotientAtLeast(a: nat, n: nat, q: nat)
    requires n > 0 && a >= q * n
    ensures a / n >= q
  {
    DivRem(a, n);
    var d := q - a / n;
    Multiples(d, n);
    assert d * n == q * n - n * (a / n);
  }

  lemma QuotientBelow(a: nat, n: nat, q: nat)
    requires n > 0 && a < q * n
    ensures a / n < q
  {
    DivRem(a, n);
    var d := a / n - q;
    Multiples(d, n);
    assert d * n == n * (a / n) - q * n;
  }

  /** Converting to ticks and back never shortens a duration, lengthens it by less than one
      tick, and is exact from 1000 ticks a second on, as long as neither cast overflows. */
  lemma RoundTripBounds(ms: nat, rate: nat)
    requires ms < WORD && 0 < rate < WORD
    requires ms * rate <= 1000 * (WORD - 1)
    requires MsToTicks(ms, rate) * 1000 / rate < WORD
    ensures var back := TicksToMs(MsToTicks(ms, rate), rate);
            && back >= ms
            && (back - ms) * rate < 1000
            && (rate >= 1000 ==> back == ms)
  {
    hide MsToTicks, TicksToMs;
    var t := MsToTicks(ms, rate);
    MsToTicksIsLeastIff(ms, rate);
    TicksToMsValue(t, rate);
    RoundedBack(ms, rate, t * 1000);
  }

  lemma TicksToMsValue(ticks: nat, rate: nat)
    requires ticks < WORD && rate > 0 && ticks * 1000 / rate < WORD
    ensures TicksToMs(ticks, rate) == ticks * 1000 / rate
  {
    NoWrap(ticks * 1000);
  }

  /** While ticks * 1000 stays below 2^32 * rate, and no further, converting back gives the whole
      milliseconds that the ticks last. */
  lemma TicksToMsIsWholeIff(ticks: nat, rate: nat)
    requires ticks < WORD && rate > 0
    ensures var ms := TicksToMs(ticks, rate);
            ms * rate <= ticks * 1000 < (ms + 1) * rate <==> ticks * 1000 < WORD * rate
  {
    hide TicksToMs;
    var x, ms := ticks * 1000, TicksToMs(ticks, rate);
    TicksToMsCast(ticks, rate);
    DivRem(x, rate);
    if x < WORD * rate {
      QuotientBelow(x, rate, WORD);
      NextMultiple(ms, rate);
    } else {
      QuotientAtLeast(x, rate, WORD);
      Multiples(WORD - 1 - ms, rate);
      Scale(rate, WORD - 1 - ms);
    }
  }

  lemma TicksToMsCast(ticks: nat, rate: nat)
    requires ticks < WORD && rate > 0
    ensures TicksToMs(ticks, rate) == ticks * 1000 / rate % WORD
  {
    NoWrap(ticks * 1000);
  }

  lemma RoundedBack(ms: nat, rate: nat, x: nat)
    requires rate > 0 && ms * rate <= x < ms * rate + 1000
    ensures x / rate >= ms && (x / rate - ms) * rate < 1000
    ensures rate >= 1000 ==> x / rate == ms
  {
    var back := x / rate;
    QuotientAtLeast(x, rate, ms);
    DivRem(x, rate);
    assert (back - ms) * rate == rate * back - ms * rate;
    Multiples(back - ms, rate);
  }

  /** From 1000 ticks a second on, converting back never overflows its cast. */
  lemma FastRateFits(ms: nat, rate: nat)
    requires ms < WORD && 1000 <= rate < WORD
    requires ms * rate <= 1000 * (WORD - 1)
    ensures MsToTicks(ms, rate) * 1000 / rate < WORD
  {
    hide MsToTicks;
    var t := MsToTicks(ms, rate);
    MsToTicksIsLeastIff(ms, rate);
    NextMultiple(ms, rate);
    LeastIsBelow(t, ms * rate, rate);
    QuotientBelow(t * 1000, rate, ms + 1);
  }

  lemma NextMultiple(a: nat, b: nat)
    ensures (a + 1) * b == a * b + b
  {
  }

  lemma LeastIsBelow(t: nat, x: nat, rate: nat)
    requires rate >= 1000 && (t > 0 ==> (t - 1) * 1000 < x)
    ensures t * 1000 < x + rate
  {
  }
}
