/** The stream buffer: bytes between one producer and one consumer, with a trigger level
    below which the consumer waits. */
module StreamBuffer {
  import opened KernelTypes
  import opened KernelSpec
  import opened RingBufferObject
  import opened SchedulerObject
  import opened Bits

  datatype Stream = Stream(bytes: seq<Byte>, capacity: nat, trigger: nat, waitSend: WaitId, waitRecv: WaitId)

  function Min(a: nat, b: nat): nat {
    if a <= b then a else b
  }

  ghost predicate StreamShape(k: Kernel, st: Stream) {
    && Shape(k) && st.waitSend in k.waits && st.waitRecv in k.waits
    && |st.bytes| <= st.capacity && 1 <= st.trigger <= st.capacity
  }

  // ---------------------------------------------------------------- passes

  /** Takes what fits; wakes the consumer once the trigger level is reached. */
  function Accept(st: Stream, data: seq<Byte>): (r: (Stream, nat))
    requires |st.bytes| <= st.capacity
  {
    var n := Min(|data|, st.capacity - |st.bytes|);
    (st.(bytes := st.bytes + data[..n]), n)
  }

  function Deliver(st: Stream, max: nat): (r: (Stream, seq<Byte>))
  {
    var n := Min(max, |st.bytes|);
    (st.(bytes := st.bytes[n..]), st.bytes[..n])
  }

  /** One pass of a send; none is the outcome of a pass that parks. A wait that ended with a
      timeout, or a caller that cannot be blocked, sends nothing. */
  function SendPass(k: Kernel, st: Stream, data: seq<Byte>, timeout: TickCount, timedOut: bool)
    : (r: (Kernel, Stream, Option<nat>))
    requires StreamShape(k, st)
  {
    if timedOut then (k, st, Some(0))
    else if |st.bytes| == st.capacity then
      if timeout == NO_WAIT || !CanBlock(k) then (k, st, Some(0))
      else (KernelSpec.BlockOn(k, st.waitSend, timeout), st, None)
    else
      var (st', n) := Accept(st, data);
      (if |st'.bytes| >= st.trigger then KernelSpec.Wake(k, st.waitRecv) else k, st', Some(n))
  }

  /** One pass of a receive. A caller that may not wait or cannot be blocked, or whose wait
      ended with a timeout, takes what there is. */
  function ReceivePass(k: Kernel, st: Stream, max: nat, timeout: TickCount, timedOut: bool)
    : (r: (Kernel, Stream, Option<seq<Byte>>))
    requires StreamShape(k, st)
  {
    if |st.bytes| < st.trigger && timeout != NO_WAIT && !timedOut && CanBlock(k) then
      (KernelSpec.BlockOn(k, st.waitRecv, timeout), st, None)
    else
      var (st', got) := Deliver(st, max);
      (if got != [] then KernelSpec.Wake(k, st.waitSend) else k, st', Some(got))
  }

  /** Level 0 means 1; levels beyond the capacity are refused. */
  function SetTrigger(k: Kernel, st: Stream, level: nat): (r: (Kernel, Stream, Status))
    requires StreamShape(k, st)
  {
    var n := if level == 0 then 1 else level;
    if n > st.capacity then (k, st, InvalidParam)
    else (if |st.bytes| >= n then KernelSpec.Wake(k, st.waitRecv) else k, st.(trigger := n), Ok)
  }

  /** The passes a task makes when it runs again after its wait. */
  function SendAgain(k: Kernel, st: Stream, data: seq<Byte>, t: TaskId, timeout: TickCount)
    : (r: (Kernel, Stream, Option<nat>))
    requires StreamShape(k, st) && t in k.tasks
  {
    SendPass(k, st, data, timeout, BlockStatus(k, t, timeout) == Timeout)
  }

  function ReceiveAgain(k: Kernel, st: Stream, max: nat, t: TaskId, timeout: TickCount)
    : (r: (Kernel, Stream, Option<seq<Byte>>))
    requires StreamShape(k, st) && t in k.tasks
  {
    ReceivePass(k, st, max, timeout, BlockStatus(k, t, timeout) == Timeout)
  }

  // ---------------------------------------------------------------- what the passes promise

  /** A send stores a prefix of its data behind what is there, and as much as fits: whatever it
      leaves out, the buffer is full. */
  lemma AcceptsAllThatFits(st: Stream, data: seq<Byte>)
    requires |st.bytes| <= st.capacity
    ensures var (r, n) := Accept(st, data);
            && n <= |data| && r == st.(bytes := st.bytes + data[..n]) && |r.bytes| <= st.capacity
            && (n < |data| ==> |r.bytes| == st.capacity)
  {
  }

  /** A receive takes the oldest bytes, and as many as it may: whatever it is short of its
      maximum, the buffer is empty. */
  lemma DeliversAllItMay(st: Stream, max: nat)
    ensures var (r, got) := Deliver(st, max);
            && st.bytes == got + r.bytes && r == st.(bytes := r.bytes) && |got| <= max
            && (|got| < max ==> r.bytes == [])
  {
  }

  /** A send parks exactly on a full buffer that it may wait for. Otherwise it sends something
      unless the buffer was full or its wait has timed out, and one waiting receiver is freed
      exactly if the trigger level is reached. */
  lemma SendTells(k: Kernel, st: Stream, data: seq<Byte>, timeout: TickCount, timedOut: bool)
    requires StreamShape(k, st) && data != []
    ensures var (k', st', sent) := SendPass(k, st, data, timeout, timedOut);
            && (sent.None? <==>
                  !timedOut && |st.bytes| == st.capacity && timeout != NO_WAIT && k.running && k.current.Some?)
            && (sent.None? ==> st' == st && Joins(k, k', st.waitSend, timeout))
            && (sent.Some? ==> sent.value <= |data| && st' == st.(bytes := st.bytes + data[..sent.value]))
            && (sent == Some(0) ==> k' == k)
            && (sent.Some? && 0 < sent.value < |data| ==> |st'.bytes| == st.capacity)
            && (sent == Some(0) <==> sent.Some? && (timedOut || |st.bytes| == st.capacity))
            && (sent.Some? && sent.value > 0 ==>
                  if |st'.bytes| >= st.trigger then FreesHead(k, k', st.waitRecv) else k' == k)
  {
    hide Shape, KernelSpec.Wake, KernelSpec.BlockOn, FreesHead, Joins;
    WakesFreeHead(k, st.waitRecv);
    if CanBlock(k) {
      BlockJoins(k, st.waitSend, timeout);
    }
    assert data[..0] == [] && st.bytes + [] == st.bytes;
  }

  /** A receive parks exactly below the trigger level, if it may wait. Otherwise it takes all it
      may of what there is, and that frees one waiting sender. */
  lemma ReceiveTells(k: Kernel, st: Stream, max: nat, timeout: TickCount, timedOut: bool)
    requires StreamShape(k, st)
    ensures var (k', st', got) := ReceivePass(k, st, max, timeout, timedOut);
            && (got.None? <==>
                  !timedOut && |st.bytes| < st.trigger && timeout != NO_WAIT && k.running && k.current.Some?)
            && (got.None? ==> st' == st && Joins(k, k', st.waitRecv, timeout))
            && (got.Some? ==>
                  && st.bytes == got.value + st'.bytes && st' == st.(bytes := st'.bytes) && |got.value| <= max
                  && (|got.value| < max ==> st'.bytes == []))
            && (got == Some([]) ==> k' == k)
            && (got.Some? && got.value != [] ==> FreesHead(k, k', st.waitSend))
  {
    hide Shape, KernelSpec.Wake, KernelSpec.BlockOn, FreesHead, Joins;
    WakesFreeHead(k, st.waitSend);
    if CanBlock(k) {
      BlockJoins(k, st.waitRecv, timeout);
    }
    DeliversAllItMay(st, max);
  }

  /** Whatever the buffer holds by then, a send whose finite wait is over sends nothing, and a
      receive takes all it may of what there is; neither waits again. */
  lemma ResumedCalls(k: Kernel, st: Stream, data: seq<Byte>, max: nat, t: TaskId, timeout: TickCount)
    requires StreamShape(k, st) && t in k.tasks && k.tasks[t].delay == 0 && k.tasks[t].wait.None?
    requires timeout != WAIT_FOREVER
    ensures SendAgain(k, st, data, t, timeout) == (k, st, Some(0))
    ensures var (_, st', got) := ReceiveAgain(k, st, max, t, timeout);
            && got.Some? && st.bytes == got.value + st'.bytes && |got.value| <= max
            && (|got.value| < max ==> st'.bytes == [])
  {
    hide Shape, KernelSpec.Wake, KernelSpec.BlockOn;
    ReceiveTells(k, st, max, timeout, true);
  }

  /** A level the buffer can hold is the one that from then on decides whether a receive waits,
      level 0 meaning 1, and one waiting receiver is freed if it is reached already; a level it
      cannot hold is refused and changes nothing. */
  lemma TriggerGoverns(k: Kernel, st: Stream, level: nat, bytes: seq<Byte>, max: nat, timeout: TickCount)
    requires StreamShape(k, st) && |bytes| <= st.capacity && timeout != NO_WAIT && CanBlock(k)
    ensures var (k', st', status) := SetTrigger(k, st, level);
            && (status == Ok <==> level <= st.capacity)
            && (status != Ok ==> SetTrigger(k, st, level) == (k, st, InvalidParam))
            && StreamShape(k, st'.(bytes := bytes)) && st' == st.(trigger := st'.trigger)
            && (status == Ok ==> if |st.bytes| >= st'.trigger then FreesHead(k, k', st.waitRecv) else k' == k)
            && (status == Ok ==>
                  (ReceivePass(k, st'.(bytes := bytes), max, timeout, false).2.None? <==>
                     |bytes| < level || (level == 0 && bytes == [])))
  {
    hide KernelSpec.Wake, KernelSpec.BlockOn, FreesHead;
    WakesFreeHead(k, st.waitRecv);
  }

  // ---------------------------------------------------------------- the object

  class StreamObject {
    const ring: RingBuffer
    var trigger: nat
    const waitSend: WaitId
    const waitRecv: WaitId

    ghost predicate Valid()
      reads this, ring
    {
      ring.Valid() && 1 <= trigger <= ring.mask
    }

    ghost function View(): Stream
      requires Valid()
      reads this, ring, ring.buffer
    {
      Stream(ring.Contents(), ring.mask, trigger, waitSend, waitRecv)
    }

    constructor (bits: nat, trigger: nat, waitSend: WaitId, waitRecv: WaitId)
      requires bits > 0 && trigger < Pow2(bits)
      ensures Valid() && fresh(ring) && fresh(ring.buffer)
      ensures View() == Stream([], Pow2(bits) - 1, if trigger == 0 then 1 else trigger, waitSend, waitRecv)
    {
      ring := new RingBuffer(bits);
      this.trigger := if trigger == 0 then 1 else trigger;
      this.waitSend, this.waitRecv := waitSend, waitRecv;
      new;
      assert Pow2(bits) == 2 * Pow2(bits - 1);
    }

    ghost predicate Callable(s: Scheduler)
      reads this, ring, s, s.readyQueues, s.tcbs.Values
    {
      && Valid() && s.Valid() && waitSend in s.waitLists && waitRecv in s.waitLists
      && (s.readyQueues as object) != ring.buffer
    }

    method Put(data: seq<Byte>) returns (n: nat)
      requires Valid()
      modifies ring, ring.buffer
      ensures Valid() && (View(), n) == Accept(old(View()), data)
    {
      n := ring.Write(data);
    }

    method Get(max: nat) returns (data: seq<Byte>)
      requires Valid()
      modifies ring
      ensures Valid() && (View(), data) == Deliver(old(View()), max)
    {
      data := ring.Read(max);
    }

    method Send(s: Scheduler, data: seq<Byte>, timeout: TickCount, timedOut: bool) returns (sent: Option<nat>)
      requires Callable(s) && data != []
      modifies ring, ring.buffer, s, s.readyQueues, s.tcbs.Values
      ensures s.Valid() && s.tcbs == old(s.tcbs) && Valid()
      ensures (s.View(), View(), sent) == SendPass(old(s.View()), old(View()), data, timeout, timedOut)
    {
      hide Shape, KernelSpec.Wake, KernelSpec.BlockOn, Accept, Deliver;
      if timedOut {
        return Some(0);
      }
      var free := ring.FreeBytes();
      if free == 0 {
        if timeout == NO_WAIT {
          return Some(0);
        }
        var status := s.WaitListBlock(waitSend, timeout);
        return if status == Ok then None else Some(0);
      }
      var n := Fill(s, data);
      sent := Some(n);
    }

    /** Stores what fits and wakes a receiver once the trigger level is reached. */
    method Fill(s: Scheduler, data: seq<Byte>) returns (n: nat)
      requires Callable(s) && data != []
      modifies ring, ring.buffer, s, s.readyQueues, s.tcbs.Values
      ensures s.Valid() && s.tcbs == old(s.tcbs) && Valid()
      ensures (View(), n) == Accept(old(View()), data)
      ensures s.View() == if |View().bytes| >= trigger then KernelSpec.Wake(old(s.View()), waitRecv) else old(s.View())
    {
      hide Shape, KernelSpec.Wake, Accept;
      ghost var k0 := s.View();
      n := Put(data);
      assert s.View() == k0 && s.Valid();
      var count := ring.Count();
      if count >= trigger {
        s.WakeOne(waitRecv);
      }
    }

    method Receive(s: Scheduler, max: nat, timeout: TickCount, timedOut: bool) returns (got: Option<seq<Byte>>)
      requires Callable(s) && max > 0
      modifies ring, s, s.readyQueues, s.tcbs.Values
      ensures s.Valid() && s.tcbs == old(s.tcbs) && Valid()
      ensures (s.View(), View(), got) == ReceivePass(old(s.View()), old(View()), max, timeout, timedOut)
    {
      hide Shape, KernelSpec.Wake, KernelSpec.BlockOn, Accept, Deliver;
      var count := ring.Count();
      if count < trigger && timeout != NO_WAIT && !timedOut {
        var status := s.WaitListBlock(waitRecv, timeout);
        if status == Ok {
          return None;
        }
      }
      var data := Drain(s, max);
      got := Some(data);
    }

    /** Takes what there is and wakes a sender if that made room. */
    method Drain(s: Scheduler, max: nat) returns (data: seq<Byte>)
      requires Callable(s) && max > 0
      modifies ring, s, s.readyQueues, s.tcbs.Values
      ensures s.Valid() && s.tcbs == old(s.tcbs) && Valid()
      ensures (View(), data) == Deliver(old(View()), max)
      ensures s.View() == if data != [] then KernelSpec.Wake(old(s.View()), waitSend) else old(s.View())
    {
      hide Shape, KernelSpec.Wake, Deliver;
      ghost var k0 := s.View();
      data := Get(max);
      assert s.View() == k0 && s.Valid();
      if |data| > 0 {
        s.WakeOne(waitSend);
      }
    }

    /** Takes what fits, from an interrupt; the flag says whether a woken consumer should run. */
    method SendFromIsr(s: Scheduler, data: seq<Byte>) returns (n: nat, higherPrioWoken: bool)
      requires Callable(s) && data != []
      modifies ring, ring.buffer, s, s.readyQueues, s.tcbs.Values
      ensures s.Valid() && s.tcbs == old(s.tcbs) && Valid()
      ensures (View(), n) == Accept(old(View()), data)
      ensures var signals := n > 0 && |View().bytes| >= trigger;
              && s.View() == (if signals then UnblockHighest(old(s.View()), waitRecv) else old(s.View()))
              && higherPrioWoken == (signals && HigherPrioWoken(old(s.View()), waitRecv))
    {
      hide Shape, UnblockHighest, HigherPrioWoken, Accept;
      n := Put(data);
      var count := ring.Count();
      higherPrioWoken := false;
      if n > 0 && count >= trigger {
        var _, flag := s.UnblockFromIsr(waitRecv);
        higherPrioWoken := flag;
      }
    }

    /** Takes what there is, whatever the trigger level, from an interrupt. */
    method ReceiveFromIsr(s: Scheduler, max: nat) returns (data: seq<Byte>, higherPrioWoken: bool)
      requires Callable(s) && max > 0
      modifies ring, s, s.readyQueues, s.tcbs.Values
      ensures s.Valid() && s.tcbs == old(s.tcbs) && Valid()
      ensures (View(), data) == Deliver(old(View()), max)
      ensures s.View() == (if data != [] then UnblockHighest(old(s.View()), waitSend) else old(s.View()))
      ensures higherPrioWoken == (data != [] && HigherPrioWoken(old(s.View()), waitSend))
    {
      hide Shape, UnblockHighest, HigherPrioWoken, Deliver;
      data := Get(max);
      higherPrioWoken := false;
      if |data| > 0 {
        var _, flag := s.UnblockFromIsr(waitSend);
        higherPrioWoken := flag;
      }
    }

    /** Drops every stored byte and wakes every blocked sender. */
    method Reset(s: Scheduler)
      requires Callable(s)
      modifies ring, s, s.readyQueues, s.tcbs.Values
      ensures s.Valid() && s.tcbs == old(s.tcbs)
      ensures Valid() && View() == old(View()).(bytes := [])
      ensures s.View() == Reschedule(WakeAll(old(s.View()), waitSend))
    {
      hide Shape, WakeAll, UnblockHighest, KernelSpec.SwitchContext;
      ring.Clear();
      s.UnblockAll(waitSend);
      if s.isRunning {
        s.Reschedule();
      }
    }

    method SetTriggerLevel(s: Scheduler, level: nat) returns (status: Status)
      requires Callable(s)
      modifies this, s, s.readyQueues, s.tcbs.Values
      ensures s.Valid() && s.tcbs == old(s.tcbs) && Valid()
      ensures (s.View(), View(), status) == SetTrigger(old(s.View()), old(View()), level)
    {
      hide Shape, KernelSpec.Wake;
      var n := if level == 0 then 1 else level;
      if n > ring.mask {
        return InvalidParam;
      }
      trigger := n;
      var count := ring.Count();
      if count >= n {
        s.WakeOne(waitRecv);
      }
      status := Ok;
    }
  }
}
