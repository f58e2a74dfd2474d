/** The size arithmetic of dynamic queue creation, with the machine's word width explicit:
    when the rounding loop ends, and when the queue gets the slots that were asked for. */
module QueueSizing {
  import opened Bits
  import opened KernelTypes

  /** The loop variable after n iterations of doubling in a word of the given width. */
  function Doubled(n: nat, bits: nat): nat {
    Pow2(n + 1) % Pow2(bits)
  }

  lemma DoubledValue(n: nat, bits: nat)
    requires bits >= 2
    ensures Doubled(n, bits) == if n + 1 < bits then Pow2(n + 1) else 0
  {
    if n + 1 < bits {
      Pow2Monotonic(n + 2, bits);
      ModUnique(Pow2(n + 1), 0, Pow2(bits), Pow2(n + 1));
    } else {
      Pow2Sum(n + 1 - bits, bits);
      ModUnique(Pow2(n + 1), Pow2(n + 1 - bits), Pow2(bits), 0);
    }
  }

  lemma {:induction false} Pow2Sum(a: nat, b: nat)
    ensures Pow2(a + b) == Pow2(a) * Pow2(b)
    decreases a
  {
    if a > 0 {
      Pow2Sum(a - 1, b);
    }
  }

  ghost predicate LoopEnds(value: nat, bits: nat) {
    exists n: nat :: Doubled(n, bits) >= value
  }

  /** The rounding loop ends exactly for values up to the largest representable power of two. */
  lemma LoopEndsIff(value: nat, bits: nat)
    requires bits >= 2
    ensures LoopEnds(value, bits) <==> value <= Pow2(bits - 1)
  {
    forall n: nat ensures Doubled(n, bits) <= Pow2(bits - 1) {
      DoubledValue(n, bits);
      if n + 1 < bits {
        Pow2Monotonic(n + 1, bits - 1);
      }
    }
    DoubledValue(bits - 2, bits);
    assert Doubled(bits - 2, bits) == Pow2(bits - 1);
  }

  /** The loop of the source, on the values it ends for. */
  method NextPowerOfTwo(value: nat, bits: nat) returns (p: nat)
    requires bits >= 2 && value <= Pow2(bits - 1)
    ensures exists e :: 1 <= e < bits && p == Pow2(e) && (e == 1 || Pow2(e - 1) < value)
    ensures value <= p <= Pow2(bits - 1)
    ensures p == RoundUp(value, 1)
  {
    p := 2;
    ghost var e := 1;
    assert Pow2(1) == 2 * Pow2(0);
    while p < value
      invariant 1 <= e < bits && p == Pow2(e) && (e == 1 || Pow2(e - 1) < value)
      invariant RoundUp(value, 1) == RoundUp(value, e)
      decreases bits - e
    {
      DoublingFits(value, e, bits);
      p := (p * 2) % Pow2(bits);
      e := e + 1;
    }
    Pow2Monotonic(e, bits - 1);
  }

  lemma DoublingFits(value: nat, e: nat, bits: nat)
    requires bits >= 2 && value <= Pow2(bits - 1) && Pow2(e) < value
    ensures e + 1 < bits && (Pow2(e) * 2) % Pow2(bits) == Pow2(e + 1)
  {
    if e >= bits - 1 {
      Pow2Monotonic(bits - 1, e);
    }
    DoubledValue(e, bits);
  }

  /** The least power of two from Pow2(e) on that reaches the value. */
  function RoundUp(value: nat, e: nat): (p: nat)
    ensures p >= value
    decreases value - Pow2(e)
  {
    if Pow2(e) >= value then Pow2(e) else RoundUp(value, e + 1)
  }

  lemma {:induction false} RoundUpBound(value: nat, e: nat, limit: nat)
    requires value <= Pow2(limit) && e <= limit
    ensures RoundUp(value, e) <= Pow2(limit)
    decreases limit - e
  {
    if Pow2(e) >= value {
      Pow2Monotonic(e, limit);
    } else {
      RoundUpBound(value, e + 1, limit);
    }
  }

  /** The item slots a dynamic create ends up with; none if its rounding loop never ends. */
  function Slots(itemSize: nat, maxItems: nat, bits: nat): Option<nat>
    requires itemSize > 0 && bits >= 2
  {
    var needed := (itemSize * maxItems + 1) % Pow2(bits);
    if needed > Pow2(bits - 1) then None else Some((RoundUp(needed, 1) - 1) / itemSize)
  }

  lemma DivReaches(a: nat, item: nat, n: nat)
    requires item > 0
    ensures a >= item * n <==> a / item >= n
  {
    var q, r := a / item, a % item;
    assert a == item * q + r;
    if q >= n {
      assert item * q >= item * n by { Multiples(q - n, item); assert (q - n) * item == item * q - item * n; }
    } else {
      assert item * n >= item * q + item by { Multiples(n - q, item); assert (n - q) * item == item * n - item * q; }
    }
  }

  /** A create provides the requested slots if and only if the request fits the largest
      representable power of two; larger requests never end or come out too small. */
  lemma CreateProvidesIff(itemSize: nat, maxItems: nat, bits: nat)
    requires itemSize > 0 && maxItems > 0 && bits >= 2
    ensures (Slots(itemSize, maxItems, bits).Some? && Slots(itemSize, maxItems, bits).value >= maxItems)
            <==> itemSize * maxItems + 1 <= Pow2(bits - 1)
  {
    var bytes := itemSize * maxItems;
    var needed := (bytes + 1) % Pow2(bits);
    assert Pow2(bits) == 2 * Pow2(bits - 1);
    if bytes + 1 <= Pow2(bits - 1) {
      ModUnique(bytes + 1, 0, Pow2(bits), bytes + 1);
      DivReaches(RoundUp(needed, 1) - 1, itemSize, maxItems);
    } else if needed <= Pow2(bits - 1) {
      RoundUpBound(needed, 1, bits - 1);
      DivReaches(RoundUp(needed, 1) - 1, itemSize, maxItems);
    }
  }
}
