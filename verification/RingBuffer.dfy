/** The byte ring under the message queue and the stream buffer: a power-of-two array with
    masked indices and one byte kept free. The `ring_buffer` module itself is not part of
    this model; its contract is read off its use. */
module RingBufferObject {
  import opened Bits

  type Byte = bv8

  class RingBuffer {
    const buffer: array<Byte>
    ghost const bits: nat
    const mask: nat
    var head: nat
    var tail: nat

    ghost predicate Valid()
      reads this
    {
      && bits > 0 && buffer.Length == Pow2(bits) == mask + 1
      && head < buffer.Length && tail < buffer.Length
    }

    /** The bytes stored, oldest first. */
    ghost function Contents(): (s: seq<Byte>)
      requires Valid()
      reads this, buffer
      ensures |s| == Stored() < buffer.Length
    {
      var n := Stored();
      seq(n, i requires Valid() && 0 <= i < n < buffer.Length reads this, buffer =>
        buffer[Slot(buffer.Length, tail, i)])
    }

    ghost function Stored(): nat
      requires Valid()
      reads this
    {
      if head >= tail then head - tail else head + buffer.Length - tail
    }

    constructor (n: nat)
      requires n > 0
      ensures Valid() && fresh(buffer) && Contents() == [] && mask == Pow2(n) - 1
    {
      bits := n;
      buffer := new Byte[Pow2(n)];
      mask := Pow2(n) - 1;
      head, tail := 0, 0;
      new;
      assert Pow2(n) == 2 * Pow2(n - 1);
    }

    method Count() returns (n: nat)
      requires Valid()
      ensures n == |Contents()|
    {
      n := And(head + buffer.Length - tail, mask);
      AndMask(head + buffer.Length - tail, bits);
      DistanceOf(buffer.Length, head, tail);
    }

    function Capacity(): nat
      requires Valid()
      reads this
      ensures |Contents()| <= Capacity()
    {
      mask
    }

    method FreeBytes() returns (n: nat)
      requires Valid()
      ensures n == mask - |Contents()|
    {
      var cnt := Count();
      n := if mask > cnt then mask - cnt else 0;
    }

    /** Stores as much of the data as fits, and says how much that was. */
    method Write(data: seq<Byte>) returns (n: nat)
      requires Valid()
      modifies this, buffer
      ensures Valid()
      ensures n == if |data| <= mask - old(|Contents()|) then |data| else mask - old(|Contents()|)
      ensures Contents() == old(Contents()) + data[..n]
    {
      var free := FreeBytes();
      var limit := if |data| <= free then |data| else free;
      n := 0;
      while n < limit
        invariant n <= limit && Valid()
        invariant Contents() == old(Contents()) + data[..n]
      {
        PutByte(data[n]);
        n := n + 1;
        assert data[..n] == data[..n - 1] + [data[n - 1]];
      }
    }

    method PutByte(b: Byte)
      requires Valid() && |Contents()| < mask
      modifies this, buffer
      ensures Valid() && Contents() == old(Contents()) + [b]
    {
      ghost var before := Contents();
      assert head == Slot(buffer.Length, tail, |before|);
      NextIndex(head, bits);
      buffer[head] := b;
      head := And(head + 1, mask);
      assert Stored() == |before| + 1;
    }

    /** Takes up to max bytes, oldest first. */
    method Read(max: nat) returns (data: seq<Byte>)
      requires Valid()
      modifies this
      ensures Valid()
      ensures var n := if max <= old(|Contents()|) then max else old(|Contents()|);
              data == old(Contents())[..n] && Contents() == old(Contents())[n..]
    {
      var cnt := Count();
      var limit := if max <= cnt then max else cnt;
      data := [];
      while |data| < limit
        invariant |data| <= limit && Valid()
        invariant data == old(Contents())[..|data|]
        invariant Contents() == old(Contents())[|data|..]
      {
        var b := TakeByte();
        data := data + [b];
      }
    }

    method TakeByte() returns (b: Byte)
      requires Valid() && Contents() != []
      modifies this
      ensures Valid() && b == old(Contents())[0] && Contents() == old(Contents())[1..]
    {
      ghost var before := Contents();
      NextIndex(tail, bits);
      b := buffer[tail];
      tail := And(tail + 1, mask);
      assert Stored() == |before| - 1;
    }

    /** Copies the oldest bytes without taking them. */
    method Peek(dest: array<Byte>, count: nat)
      requires Valid() && count <= |Contents()| && count <= dest.Length && dest != buffer
      modifies dest
      ensures dest[..count] == Contents()[..count]
      ensures dest[count..] == old(dest[count..])
    {
      for i := 0 to count
        invariant dest[..i] == Contents()[..i]
        invariant dest[count..] == old(dest[count..])
      {
        AndMask(tail + i, bits);
        SlotOf(buffer.Length, tail, i);
        dest[i] := buffer[And(tail + i, mask)];
        assert dest[..i + 1] == dest[..i] + [dest[i]];
      }
    }

    method Clear()
      requires Valid()
      modifies this
      ensures Valid() && Contents() == []
    {
      head, tail := 0, 0;
    }
  }

  // ---------------------------------------------------------------- indices

  /** The i-th slot after tail, written without the remainder. */
  function Slot(n: nat, tail: nat, i: nat): (r: nat)
    requires tail < n && i < n
    ensures r < n
  {
    if tail + i < n then tail + i else tail + i - n
  }

  lemma SlotOf(n: nat, tail: nat, i: nat)
    requires tail < n && i < n
    ensures (tail + i) % n == Slot(n, tail, i)
  {
    ModUnique(tail + i, if tail + i < n then 0 else 1, n, Slot(n, tail, i));
  }

  lemma NextIndex(i: nat, bits: nat)
    requires bits > 0 && i < Pow2(bits)
    ensures And(i + 1, Pow2(bits) - 1) == if i + 1 < Pow2(bits) then i + 1 else 0
  {
    assert Pow2(bits) == 2 * Pow2(bits - 1);
    AndMask(i + 1, bits);
    SlotOf(Pow2(bits), i, 1);
  }

  lemma DistanceOf(n: nat, head: nat, tail: nat)
    requires head < n && tail < n
    ensures (head + n - tail) % n == if head >= tail then head - tail else head + n - tail
  {
    if head >= tail {
      ModUnique(head + n - tail, 1, n, head - tail);
    } else {
      ModUnique(head + n - tail, 0, n, head + n - tail);
    }
  }
}
