/** The message queue over its byte ring and the scheduler. A blocking call is one pass of
    its loop at a time: it completes, gives up, or parks and is passed again when it runs. */
module MessageQueue {
  import opened KernelTypes
  import opened KernelSpec
  import opened Bits
  import opened RingBufferObject
  import opened SchedulerObject
  import QueueSizing

  type Item = seq<Byte>

  // ---------------------------------------------------------------- passes over whole items

  /** A bounded FIFO of items with its two wait lists. */
  datatype Mq = Mq(items: seq<Item>, max: nat, waitSend: WaitId, waitRecv: WaitId)

  /** One pass of a send. A wait that ended with a timeout ends the call; a successful pass
      wakes one receiver, which may preempt. */
  function SendPass(k: Kernel, q: Mq, item: Item, timeout: TickCount, timedOut: bool): (r: (Kernel, Mq, Outcome))
    requires Shape(k) && q.waitSend in k.waits && q.waitRecv in k.waits
  {
    if timedOut then (k, q, Done(Timeout))
    else if |q.items| < q.max then (KernelSpec.Wake(k, q.waitRecv), q.(items := q.items + [item]), Done(Ok))
    else if timeout == NO_WAIT then (k, q, Done(Timeout))
    else if !CanBlock(k) then (k, q, Done(NotInitialized))
    else (KernelSpec.BlockOn(k, q.waitSend, timeout), q, Parked)
  }

  function ReceivePass(k: Kernel, q: Mq, timeout: TickCount, timedOut: bool): (r: (Kernel, Mq, Outcome, Option<Item>))
    requires Shape(k) && q.waitSend in k.waits && q.waitRecv in k.waits
  {
    if timedOut then (k, q, Done(Timeout), None)
    else if q.items != []
    then (KernelSpec.Wake(k, q.waitSend), q.(items := q.items[1..]), Done(Ok), Some(q.items[0]))
    else if timeout == NO_WAIT then (k, q, Done(Timeout), None)
    else if !CanBlock(k) then (k, q, Done(NotInitialized), None)
    else (KernelSpec.BlockOn(k, q.waitRecv, timeout), q, Parked, None)
  }

  /** A peek waits with the receivers, takes nothing and wakes nobody. */
  function PeekPass(k: Kernel, q: Mq, timeout: TickCount, timedOut: bool): (r: (Kernel, Outcome))
    requires Shape(k) && q.waitRecv in k.waits
  {
    if timedOut then (k, Done(Timeout))
    else if q.items != [] then (k, Done(Ok))
    else if timeout == NO_WAIT then (k, Done(Timeout))
    else if !CanBlock(k) then (k, Done(NotInitialized))
    else (KernelSpec.BlockOn(k, q.waitRecv, timeout), Parked)
  }

  /** The passes a task makes when it runs again after its wait: the status of the wait decides
      whether they go on. */
  function SendAgain(k: Kernel, q: Mq, item: Item, t: TaskId, timeout: TickCount): (r: (Kernel, Mq, Outcome))
    requires Shape(k) && q.waitSend in k.waits && q.waitRecv in k.waits && t in k.tasks
  {
    SendPass(k, q, item, timeout, BlockStatus(k, t, timeout) == Timeout)
  }

  function ReceiveAgain(k: Kernel, q: Mq, t: TaskId, timeout: TickCount): (r: (Kernel, Mq, Outcome, Option<Item>))
    requires Shape(k) && q.waitSend in k.waits && q.waitRecv in k.waits && t in k.tasks
  {
    ReceivePass(k, q, timeout, BlockStatus(k, t, timeout) == Timeout)
  }

  function PeekAgain(k: Kernel, q: Mq, t: TaskId, timeout: TickCount): (r: (Kernel, Outcome))
    requires Shape(k) && q.waitRecv in k.waits && t in k.tasks
  {
    PeekPass(k, q, timeout, BlockStatus(k, t, timeout) == Timeout)
  }

  /** Whatever the queue holds by then, a call whose finite wait is over returns a timeout and
      changes neither the kernel nor the items; one that waited without bound makes a pass like
      its first. */
  lemma ResumedCalls(k: Kernel, q: Mq, item: Item, t: TaskId, timeout: TickCount)
    requires Shape(k) && q.waitSend in k.waits && q.waitRecv in k.waits && t in k.tasks
    requires k.tasks[t].delay == 0 && k.tasks[t].wait.None?
    ensures timeout != WAIT_FOREVER ==>
              && SendAgain(k, q, item, t, timeout) == (k, q, Done(Timeout))
              && ReceiveAgain(k, q, t, timeout) == (k, q, Done(Timeout), None)
              && PeekAgain(k, q, t, timeout) == (k, Done(Timeout))
    ensures timeout == WAIT_FOREVER ==>
              && SendAgain(k, q, item, t, timeout) == SendPass(k, q, item, timeout, false)
              && ReceiveAgain(k, q, t, timeout) == ReceivePass(k, q, timeout, false)
              && PeekAgain(k, q, t, timeout) == PeekPass(k, q, timeout, false)
  {
    hide Shape, KernelSpec.Wake, KernelSpec.BlockOn;
  }

  /** What a caller is told is what happened: OK exactly if the item went in or came out, and then
      one waiter of the other side is freed; parked exactly if the call waits, among its own side;
      a refusal leaves everything as it was. */
  lemma OutcomesTell(k: Kernel, q: Mq, item: Item, timeout: TickCount, timedOut: bool)
    requires Shape(k) && q.waitSend in k.waits && q.waitRecv in k.waits && |q.items| <= q.max && q.max > 0
    ensures var (k', q', outcome) := SendPass(k, q, item, timeout, timedOut);
            && (outcome == Done(Ok) <==> q'.items == q.items + [item])
            && (outcome != Done(Ok) ==> q' == q)
            && (outcome == Parked <==>
                  !timedOut && |q.items| == q.max && timeout != NO_WAIT && k.running && k.current.Some?)
            && (outcome == Done(Ok) ==> FreesHead(k, k', q.waitRecv))
            && (outcome == Parked ==> Joins(k, k', q.waitSend, timeout))
            && (outcome.Done? && outcome != Done(Ok) ==>
                  k' == k && outcome == Done(if !timedOut && timeout != NO_WAIT then NotInitialized else Timeout))
    ensures var (k', q', outcome, got) := ReceivePass(k, q, timeout, timedOut);
            && (outcome == Done(Ok) <==> got.Some? && q.items == [got.value] + q'.items)
            && (outcome != Done(Ok) ==> q' == q && got.None?)
            && (outcome == Parked <==> !timedOut && q.items == [] && timeout != NO_WAIT && k.running && k.current.Some?)
            && (outcome == Done(Ok) ==> FreesHead(k, k', q.waitSend))
            && (outcome == Parked ==> Joins(k, k', q.waitRecv, timeout))
            && (outcome.Done? && outcome != Done(Ok) ==>
                  k' == k && outcome == Done(if !timedOut && timeout != NO_WAIT then NotInitialized else Timeout))
    ensures var (k', outcome) := PeekPass(k, q, timeout, timedOut);
            && (outcome == Done(Ok) <==> !timedOut && q.items != [])
            && (outcome == Parked <==> !timedOut && q.items == [] && timeout != NO_WAIT && k.running && k.current.Some?)
            && (outcome.Done? ==> k' == k) && (outcome == Parked ==> Joins(k, k', q.waitRecv, timeout))
            && (outcome.Done? && outcome != Done(Ok) ==>
                  outcome == Done(if !timedOut && timeout != NO_WAIT then NotInitialized else Timeout))
    ensures SendIsr(k, q, item).2 == (if |q.items| == q.max then ResourceBusy else Ok)
    ensures SendIsr(k, q, item).2 == Ok ==>
              FreesHead(k, SendIsr(k, q, item).0, q.waitRecv) && SendIsr(k, q, item).3 == HigherPrioWoken(k, q.waitRecv)
    ensures SendIsr(k, q, item).2 != Ok ==> SendIsr(k, q, item) == (k, q, ResourceBusy, false)
    ensures ReceiveIsr(k, q).2 == (if q.items == [] then ResourceBusy else Ok)
    ensures ReceiveIsr(k, q).2 == Ok ==>
              FreesHead(k, ReceiveIsr(k, q).0, q.waitSend) && ReceiveIsr(k, q).3 == HigherPrioWoken(k, q.waitSend)
    ensures ReceiveIsr(k, q).2 != Ok ==> ReceiveIsr(k, q) == (k, q, ResourceBusy, false, [])
  {
    hide Shape, KernelSpec.Wake, KernelSpec.BlockOn, UnblockHighest, HigherPrioWoken, FreesHead, Joins;
    assert |q.items + [item]| == |q.items| + 1;
    WakesFreeHead(k, q.waitRecv);
    WakesFreeHead(k, q.waitSend);
    if CanBlock(k) {
      BlockJoins(k, q.waitSend, timeout);
      BlockJoins(k, q.waitRecv, timeout);
    }
  }

  /** The interrupt forms never wait; the flag says whether the caller should yield. */
  function SendIsr(k: Kernel, q: Mq, item: Item): (r: (Kernel, Mq, Status, bool))
    requires Shape(k) && q.waitRecv in k.waits
  {
    if |q.items| < q.max
    then (UnblockHighest(k, q.waitRecv), q.(items := q.items + [item]), Ok, HigherPrioWoken(k, q.waitRecv))
    else (k, q, ResourceBusy, false)
  }

  function ReceiveIsr(k: Kernel, q: Mq): (r: (Kernel, Mq, Status, bool, Item))
    requires Shape(k) && q.waitSend in k.waits
  {
    if q.items != []
    then (UnblockHighest(k, q.waitSend), q.(items := q.items[1..]), Ok, HigherPrioWoken(k, q.waitSend), q.items[0])
    else (k, q, ResourceBusy, false, [])
  }

  // ---------------------------------------------------------------- items as bytes

  ghost function Flatten(items: seq<Item>): seq<Byte> {
    if items == [] then [] else items[0] + Flatten(items[1..])
  }

  ghost predicate Sized(items: seq<Item>, size: nat) {
    forall i :: 0 <= i < |items| ==> |items[i]| == size
  }

  /** The ring holds exactly the items, end to end, and the slots are what fits. */
  ghost predicate Represents(bytes: seq<Byte>, capacity: nat, size: nat, q: Mq) {
    && size > 0 && Sized(q.items, size)
    && bytes == Flatten(q.items)
    && |bytes| <= capacity && q.max == capacity / size
  }

  lemma {:induction false} FlattenLength(items: seq<Item>, size: nat)
    requires Sized(items, size)
    ensures |Flatten(items)| == |items| * size
  {
    if items != [] {
      FlattenLength(items[1..], size);
      assert |items| * size == size + (|items| - 1) * size;
    }
  }

  lemma {:induction false} FlattenAppend(items: seq<Item>, item: Item)
    ensures Flatten(items + [item]) == Flatten(items) + item
  {
    if items == [] {
      assert (items + [item])[1..] == [];
      assert item + [] == item && [] + item == item;
    } else {
      FlattenAppend(items[1..], item);
      assert (items + [item])[1..] == items[1..] + [item];
      assert items[0] + (Flatten(items[1..]) + item) == items[0] + Flatten(items[1..]) + item;
    }
  }

  /** The byte tests of the source are the item tests. */
  lemma ByteTests(bytes: seq<Byte>, capacity: nat, size: nat, q: Mq)
    requires Represents(bytes, capacity, size, q)
    ensures |bytes| == |q.items| * size
    ensures capacity - |bytes| < size <==> |q.items| >= q.max
    ensures |bytes| < size <==> q.items == []
    ensures |q.items| <= q.max
  {
    FlattenLength(q.items, size);
    var n := |q.items|;
    QueueSizing.DivReaches(capacity, size, n);
    QueueSizing.DivReaches(capacity, size, n + 1);
    assert size * (n + 1) == n * size + size && size * n == n * size;
    if n > 0 {
      assert n * size == size + (n - 1) * size;
    }
  }

  /** Appending an item's bytes stores the item whole. */
  lemma StoreRepresents(bytes: seq<Byte>, capacity: nat, size: nat, q: Mq, item: Item)
    requires Represents(bytes, capacity, size, q) && |item| == size && capacity - |bytes| >= size
    ensures Represents(bytes + item, capacity, size, q.(items := q.items + [item]))
  {
    FlattenAppend(q.items, item);
  }

  /** The oldest item's bytes come out whole, wherever in the ring they lie. */
  lemma FetchRepresents(bytes: seq<Byte>, capacity: nat, size: nat, q: Mq)
    requires Represents(bytes, capacity, size, q) && |bytes| >= size
    ensures q.items != []
    ensures bytes[..size] == q.items[0]
    ensures Represents(bytes[size..], capacity, size, q.(items := q.items[1..]))
  {
    ByteTests(bytes, capacity, size, q);
    assert bytes == q.items[0] + Flatten(q.items[1..]);
  }

  /** Whatever is stored, the reported items and the reported spaces add up to the slots. */
  lemma CountPlusSpaces(bytes: seq<Byte>, capacity: nat, size: nat, q: Mq)
    requires Represents(bytes, capacity, size, q)
    ensures size > 0 && |bytes| / size == |q.items|
    ensures (capacity - |bytes|) / size == q.max - |q.items|
    ensures |bytes| / size + (capacity - |bytes|) / size == capacity / size
  {
    ByteTests(bytes, capacity, size, q);
    var n := |q.items|;
    ModUnique(|bytes|, n, size, 0);
    var r := capacity % size;
    assert capacity == q.max * size + r;
    assert (q.max - n) * size == q.max * size - n * size;
    ModUnique(capacity - |bytes|, q.max - n, size, r);
  }

  // ---------------------------------------------------------------- the object

  class QueueObject {
    const ring: RingBuffer
    const itemSize: nat
    const maxItems: nat
    const waitSend: WaitId
    const waitRecv: WaitId

    ghost predicate Valid(q: Mq)
      reads ring, ring.buffer
    {
      && ring.Valid()
      && Represents(ring.Contents(), ring.mask, itemSize, q)
      && q.max == maxItems && q.waitSend == waitSend && q.waitRecv == waitRecv
    }

    constructor (bits: nat, itemSize: nat, waitSend: WaitId, waitRecv: WaitId)
      requires bits > 0 && itemSize > 0
      ensures fresh(ring) && fresh(ring.buffer) && this.itemSize == itemSize
      ensures Valid(Mq([], (Pow2(bits) - 1) / itemSize, waitSend, waitRecv))
    {
      var r := new RingBuffer(bits);
      ring := r;
      this.itemSize := itemSize;
      maxItems := r.mask / itemSize;
      this.waitSend, this.waitRecv := waitSend, waitRecv;
    }

    /** The lists the queue's tasks wait in exist. */
    ghost predicate Callable(s: Scheduler)
      reads s, s.readyQueues, s.tcbs.Values
    {
      && s.Valid() && waitSend in s.waitLists && waitRecv in s.waitLists
      && (s.readyQueues as object) != ring.buffer
    }

    /** Stores one item whole. */
    method Store(item: Item, ghost q: Mq)
      requires Valid(q) && |item| == itemSize && ring.mask - |ring.Contents()| >= itemSize
      modifies ring, ring.buffer
      ensures Valid(q.(items := q.items + [item]))
    {
      StoreRepresents(ring.Contents(), ring.mask, itemSize, q, item);
      var n := ring.Write(item);
      assert item[..n] == item;
    }

    /** Takes the oldest item whole. */
    method Fetch(ghost q: Mq) returns (item: Item)
      requires Valid(q) && |ring.Contents()| >= itemSize
      modifies ring
      ensures q.items != [] && item == q.items[0]
      ensures Valid(q.(items := q.items[1..]))
    {
      FetchRepresents(ring.Contents(), ring.mask, itemSize, q);
      item := ring.Read(itemSize);
    }

    method Send(s: Scheduler, item: Item, timeout: TickCount, timedOut: bool, ghost q: Mq)
      returns (outcome: Outcome, ghost q': Mq)
      requires Valid(q) && Callable(s) && |item| == itemSize
      modifies ring, ring.buffer, s, s.readyQueues, s.tcbs.Values
      ensures s.Valid() && s.tcbs == old(s.tcbs) && Valid(q')
      ensures (s.View(), q', outcome) == SendPass(old(s.View()), q, item, timeout, timedOut)
    {
      hide Shape, Represents, KernelSpec.Wake, KernelSpec.BlockOn;
      q' := q;
      if timedOut {
        return Done(Timeout), q;
      }
      ByteTests(ring.Contents(), ring.mask, itemSize, q);
      var free := ring.FreeBytes();
      if free < itemSize {
        if timeout == NO_WAIT {
          return Done(Timeout), q;
        }
        var status := s.WaitListBlock(waitSend, timeout);
        return if status == Ok then Parked else Done(status), q;
      }
      q' := q.(items := q.items + [item]);
      ghost var k0 := s.View();
      Store(item, q);
      assert s.View() == k0 && s.Valid();
      s.WakeOne(waitRecv);
      outcome := Done(Ok);
    }

    method Receive(s: Scheduler, timeout: TickCount, timedOut: bool, ghost q: Mq)
      returns (outcome: Outcome, item: Item, ghost q': Mq)
      requires Valid(q) && Callable(s)
      modifies ring, s, s.readyQueues, s.tcbs.Values
      ensures s.Valid() && s.tcbs == old(s.tcbs) && Valid(q')
      ensures var (k', r, o, got) := ReceivePass(old(s.View()), q, timeout, timedOut);
              && s.View() == k' && q' == r && outcome == o
              && (got.Some? ==> item == got.value)
    {
      hide Shape, Represents, KernelSpec.Wake, KernelSpec.BlockOn;
      q', item := q, [];
      if timedOut {
        return Done(Timeout), [], q;
      }
      ByteTests(ring.Contents(), ring.mask, itemSize, q);
      var count := ring.Count();
      if count < itemSize {
        if timeout == NO_WAIT {
          return Done(Timeout), [], q;
        }
        var status := s.WaitListBlock(waitRecv, timeout);
        return if status == Ok then Parked else Done(status), [], q;
      }
      item, q' := TakeOldest(s, q);
      outcome := Done(Ok);
    }

    /** Takes the oldest item and wakes a sender. */
    method TakeOldest(s: Scheduler, ghost q: Mq) returns (item: Item, ghost q': Mq)
      requires Valid(q) && Callable(s) && q.items != []
      modifies ring, s, s.readyQueues, s.tcbs.Values
      ensures s.Valid() && s.tcbs == old(s.tcbs) && Valid(q')
      ensures item == q.items[0] && q' == q.(items := q.items[1..])
      ensures s.View() == KernelSpec.Wake(old(s.View()), waitSend)
    {
      hide Shape, Represents, KernelSpec.Wake;
      ByteTests(ring.Contents(), ring.mask, itemSize, q);
      ghost var k0 := s.View();
      item := Fetch(q);
      assert s.View() == k0 && s.Valid();
      q' := q.(items := q.items[1..]);
      s.WakeOne(waitSend);
    }

    /** Stores an item from an interrupt, if there is room. */
    method SendFromIsr(s: Scheduler, item: Item, ghost q: Mq)
        returns (status: Status, higherPrioWoken: bool, ghost q': Mq)
      requires Valid(q) && Callable(s) && |item| == itemSize
      modifies ring, ring.buffer, s, s.readyQueues, s.tcbs.Values
      ensures s.Valid() && s.tcbs == old(s.tcbs) && Valid(q')
      ensures (s.View(), q', status, higherPrioWoken) == SendIsr(old(s.View()), q, item)
    {
      hide Shape, Represents, UnblockHighest, HigherPrioWoken;
      ByteTests(ring.Contents(), ring.mask, itemSize, q);
      var free := ring.FreeBytes();
      if free < itemSize {
        return ResourceBusy, false, q;
      }
      q' := q.(items := q.items + [item]);
      ghost var k0 := s.View();
      Store(item, q);
      assert s.View() == k0 && s.Valid();
      var _, flag := s.UnblockFromIsr(waitRecv);
      status, higherPrioWoken := Ok, flag;
    }

    /** Takes an item from an interrupt, if there is one. */
    method ReceiveFromIsr(s: Scheduler, ghost q: Mq)
        returns (status: Status, item: Item, higherPrioWoken: bool, ghost q': Mq)
      requires Valid(q) && Callable(s)
      modifies ring, s, s.readyQueues, s.tcbs.Values
      ensures s.Valid() && s.tcbs == old(s.tcbs) && Valid(q')
      ensures (s.View(), q', status, higherPrioWoken, item) == ReceiveIsr(old(s.View()), q)
    {
      hide Shape, Represents, UnblockHighest, HigherPrioWoken;
      ByteTests(ring.Contents(), ring.mask, itemSize, q);
      var count := ring.Count();
      if count < itemSize {
        return ResourceBusy, [], false, q;
      }
      q' := q.(items := q.items[1..]);
      ghost var k0 := s.View();
      item := Fetch(q);
      assert s.View() == k0 && s.Valid();
      var _, flag := s.UnblockFromIsr(waitSend);
      status, higherPrioWoken := Ok, flag;
    }

    method Reset(ghost q: Mq)
      requires Valid(q)
      modifies ring
      ensures Valid(q.(items := []))
    {
      ring.Clear();
    }

    /** Copies the oldest item without taking it. */
    method CopyOldest(dest: array<Byte>, ghost q: Mq)
      requires Valid(q) && dest.Length == itemSize && dest != ring.buffer && |ring.Contents()| >= itemSize
      modifies dest
      ensures Valid(q) && q.items != [] && dest[..] == q.items[0]
    {
      FetchRepresents(ring.Contents(), ring.mask, itemSize, q);
      ring.Peek(dest, itemSize);
      assert dest[..] == dest[..itemSize];
    }

    /** One pass of a peek: what the next receive would return. */
    method Peek(s: Scheduler, dest: array<Byte>, timeout: TickCount, timedOut: bool, ghost q: Mq)
      returns (outcome: Outcome)
      requires Valid(q) && Callable(s) && dest.Length == itemSize
      requires dest != ring.buffer && (s.readyQueues as object) != dest
      modifies dest, s, s.readyQueues, s.tcbs.Values
      ensures s.Valid() && s.tcbs == old(s.tcbs) && Valid(q)
      ensures (s.View(), outcome) == PeekPass(old(s.View()), q, timeout, timedOut)
      ensures dest[..] == if !timedOut && q.items != [] then q.items[0] else old(dest[..])
    {
      hide Shape, Represents, KernelSpec.BlockOn;
      if timedOut {
        return Done(Timeout);
      }
      ByteTests(ring.Contents(), ring.mask, itemSize, q);
      var count := ring.Count();
      if count < itemSize {
        if timeout == NO_WAIT {
          return Done(Timeout);
        }
        var status := s.WaitListBlock(waitRecv, timeout);
        return if status == Ok then Parked else Done(status);
      }
      CopyOldest(dest, q);
      outcome := Done(Ok);
    }

    method GetCount(ghost q: Mq) returns (n: nat)
      requires Valid(q)
      ensures n == |q.items|
    {
      hide Represents;
      CountPlusSpaces(ring.Contents(), ring.mask, itemSize, q);
      var count := ring.Count();
      n := count / itemSize;
    }

    method GetSpacesAvailable(ghost q: Mq) returns (n: nat)
      requires Valid(q)
      ensures n == q.max - |q.items|
    {
      hide Represents;
      CountPlusSpaces(ring.Contents(), ring.mask, itemSize, q);
      var free := ring.FreeBytes();
      n := free / itemSize;
    }
  }
}
