/** The queue's byte ring over whole runs, with any timeouts, users, peeks and resets: what is
    read back is, item for item, what was written. */
module QueueFifo {
  import opened KernelTypes
  import opened KernelSpec
  import opened KernelRuns
  import opened WaitOrder
  import opened RingBufferObject
  import opened MessageQueue

  /** The bytes in the ring, and logs of the items written and read since the last reset. */
  datatype System = System(
    k: Kernel, bytes: seq<Byte>, capacity: nat, size: nat, waitSend: WaitId, waitRecv: WaitId,
    sent: seq<Item>, received: seq<Item>)

  /** TimedOut is the last pass of a caller whose wait ended with a timeout. */
  datatype Event =
    | Send(item: Item, timeout: TickCount)
    | Receive(timeout: TickCount)
    | Peek(timeout: TickCount)
    | TimedOut
    | SendFromIsr(item: Item)
    | ReceiveFromIsr
    | Reset
    | Other(e: KernelRuns.Event)

  predicate Full(s: System) {
    s.capacity < |s.bytes| + s.size
  }

  predicate Short(s: System) {
    |s.bytes| < s.size
  }

  ghost predicate Usable(s: System) {
    Good(s.k) && s.waitSend in s.k.waits && s.waitRecv in s.k.waits
  }

  /** A caller may park when its pass would. */
  ghost predicate CanDo(s: System, e: Event)
    requires Usable(s)
  {
    match e
    case Send(item, timeout) =>
      && |item| == s.size
      && (Full(s) && timeout != NO_WAIT && CanBlock(s.k) ==> Can(s.k, BlockOn(s.waitSend, timeout)))
    case Receive(timeout) =>
      (Short(s) && timeout != NO_WAIT && CanBlock(s.k) ==> Can(s.k, BlockOn(s.waitRecv, timeout)))
    case Peek(timeout) =>
      (Short(s) && timeout != NO_WAIT && CanBlock(s.k) ==> Can(s.k, BlockOn(s.waitRecv, timeout)))
    case SendFromIsr(item) => |item| == s.size && s.k.running
    case ReceiveFromIsr => s.k.running
    case TimedOut | Reset => true
    case Other(o) => Can(s.k, o)
  }

  /** The kernel call a pass makes. */
  ghost function KernelEvent(s: System, e: Event): Option<KernelRuns.Event> {
    match e
    case Send(_, timeout) =>
      if !Full(s) then Some(Wake(s.waitRecv))
      else if timeout == NO_WAIT || !CanBlock(s.k) then None else Some(BlockOn(s.waitSend, timeout))
    case Receive(timeout) =>
      if !Short(s) then Some(Wake(s.waitSend))
      else if timeout == NO_WAIT || !CanBlock(s.k) then None else Some(BlockOn(s.waitRecv, timeout))
    case Peek(timeout) =>
      if !Short(s) || timeout == NO_WAIT || !CanBlock(s.k) then None else Some(BlockOn(s.waitRecv, timeout))
    case SendFromIsr(_) => if Full(s) then None else Some(WakeFromIsr(s.waitRecv))
    case ReceiveFromIsr => if Short(s) then None else Some(WakeFromIsr(s.waitSend))
    case TimedOut | Reset => None
    case Other(o) => Some(o)
  }

  function Written(s: System, item: Item): System {
    if Full(s) then s else s.(bytes := s.bytes + item, sent := s.sent + [item])
  }

  function Taken(s: System): System {
    if Short(s) then s else s.(bytes := s.bytes[s.size..], received := s.received + [s.bytes[..s.size]])
  }

  ghost function Do(s: System, e: Event): System
    requires Usable(s) && CanDo(s, e)
  {
    var k := if KernelEvent(s, e).Some? then Step(s.k, KernelEvent(s, e).value) else s.k;
    match e
    case Send(item, _) => Written(s, item).(k := k)
    case SendFromIsr(item) => Written(s, item).(k := k)
    case Receive(_) => Taken(s).(k := k)
    case ReceiveFromIsr => Taken(s).(k := k)
    case Reset => s.(bytes := [], sent := [], received := [])
    case _ => s.(k := k)
  }

  /** The items written and not yet read. */
  function Stored(s: System): Mq {
    Mq(if |s.received| <= |s.sent| then s.sent[|s.received|..] else [],
       if s.size > 0 then s.capacity / s.size else 0, s.waitSend, s.waitRecv)
  }

  /** What was read is a prefix of what was written, and the ring holds the rest, end to end. */
  ghost predicate Fifo(s: System) {
    s.received <= s.sent && Represents(s.bytes, s.capacity, s.size, Stored(s))
  }

  lemma WrittenFifo(s: System, item: Item)
    requires Fifo(s) && |item| == s.size
    ensures Fifo(Written(s, item))
  {
    if !Full(s) {
      StoreRepresents(s.bytes, s.capacity, s.size, Stored(s), item);
      hide Represents;
      assert (s.sent + [item])[|s.received|..] == s.sent[|s.received|..] + [item];
    }
  }

  /** A read returns the oldest item written and not yet read, whole. */
  lemma TakenFifo(s: System)
    requires Fifo(s)
    ensures Fifo(Taken(s))
    ensures !Short(s) ==> |s.received| < |s.sent| && s.bytes[..s.size] == s.sent[|s.received|]
    ensures Short(s) <==> s.received == s.sent
  {
    ByteTests(s.bytes, s.capacity, s.size, Stored(s));
    if !Short(s) {
      FetchRepresents(s.bytes, s.capacity, s.size, Stored(s));
      hide Represents;
      assert s.sent[|s.received|..][1..] == s.sent[|s.received| + 1..];
      assert s.received + [s.sent[|s.received|]] == s.sent[..|s.received| + 1];
    }
  }

  // ---------------------------------------------------------------- the same passes

  lemma StoredAfter(s: System, item: Item)
    requires Fifo(s)
    ensures Full(s) <==> |Stored(s).items| >= Stored(s).max
    ensures Short(s) <==> Stored(s).items == []
    ensures !Full(s) ==> Stored(Written(s, item)) == Stored(s).(items := Stored(s).items + [item])
    ensures !Short(s) ==> Stored(s).items != [] && Stored(s).items[0] == s.bytes[..s.size]
    ensures !Short(s) ==> Stored(Taken(s)) == Stored(s).(items := Stored(s).items[1..])
  {
    ByteTests(s.bytes, s.capacity, s.size, Stored(s));
    if !Full(s) {
      assert (s.sent + [item])[|s.received|..] == s.sent[|s.received|..] + [item];
    }
    if !Short(s) {
      TakenFifo(s);
      assert s.sent[|s.received|..][1..] == s.sent[|s.received| + 1..];
    }
  }

  /** On a ring that holds whole items the byte-level steps are the passes over items: the same
      kernel, the same items left, the same item returned. */
  lemma StepsArePasses(s: System, e: Event)
    requires Sound(s) && CanDo(s, e)
    ensures var r := Do(s, e); var q := Stored(s);
            match e
            case Send(item, timeout) =>
              SendPass(s.k, q, item, timeout, false).0 == r.k && SendPass(s.k, q, item, timeout, false).1 == Stored(r)
            case Receive(timeout) =>
              && ReceivePass(s.k, q, timeout, false).0 == r.k && ReceivePass(s.k, q, timeout, false).1 == Stored(r)
              && ReceivePass(s.k, q, timeout, false).3 == (if Short(s) then None else Some(s.bytes[..s.size]))
            case Peek(timeout) => PeekPass(s.k, q, timeout, false).0 == r.k && Stored(r) == q
            case TimedOut => r == s
            case SendFromIsr(item) =>
              var (k, q', _, flag) := SendIsr(s.k, q, item);
              r.k == (if flag then SwitchContext(k) else k) && Stored(r) == q'
            case ReceiveFromIsr =>
              var (k, q', _, flag, item) := ReceiveIsr(s.k, q);
              && r.k == (if flag then SwitchContext(k) else k) && Stored(r) == q'
              && (!Short(s) ==> item == s.bytes[..s.size])
            case Reset => Stored(r) == q.(items := [])
            case Other(_) => Stored(r) == q
  {
    hide Good, Fifo, KernelSpec.BlockOn, KernelSpec.Wake, SwitchContext, UnblockHighest, HigherPrioWoken, Shape;
    StoredAfter(s, if e.Send? || e.SendFromIsr? then e.item else []);
    Shaped(s);
  }

  /** TimedOut is the pass after a finite wait, of a send, a receive or a peek: it returns a
      timeout and writes, reads and wakes nothing. */
  lemma TimedOutIsPass(s: System, item: Item, t: TaskId, timeout: TickCount)
    requires Sound(s) && t in s.k.tasks && s.k.tasks[t].delay == 0 && s.k.tasks[t].wait.None?
    requires timeout != WAIT_FOREVER
    ensures Shape(s.k) && CanDo(s, TimedOut)
    ensures var r := Do(s, TimedOut);
            && SendAgain(s.k, Stored(s), item, t, timeout) == (r.k, Stored(r), Done(Timeout))
            && ReceiveAgain(s.k, Stored(s), t, timeout) == (r.k, Stored(r), Done(Timeout), None)
            && PeekAgain(s.k, Stored(s), t, timeout) == (r.k, Done(Timeout))
            && r == s
  {
    hide Good, Fifo;
    Shaped(s);
    NothingWritten(s);
    ResumedCalls(s.k, Stored(s), item, t, timeout);
  }

  lemma NothingWritten(s: System)
    requires Usable(s) && CanDo(s, TimedOut)
    ensures Do(s, TimedOut) == s
  {
  }

  lemma Shaped(s: System)
    requires Usable(s)
    ensures Shape(s.k) && (CanBlock(s.k) ==> s.k.running && s.k.current.Some?)
  {
  }

  lemma EmptyFifo(s: System)
    requires s.size > 0 && s.bytes == [] && s.sent == [] && s.received == []
    ensures Fifo(s)
  {
  }

  ghost predicate Sound(s: System) {
    Usable(s) && Fifo(s)
  }

  lemma KernelMoves(s: System, e: Event)
    requires Usable(s) && CanDo(s, e)
    ensures KernelEvent(s, e).Some? ==> Can(s.k, KernelEvent(s, e).value) && Good(Step(s.k, KernelEvent(s, e).value))
    ensures Usable(Do(s, e))
  {
    hide Good, Step;
    if KernelEvent(s, e).Some? {
      var o := KernelEvent(s, e).value;
      StepGood(s.k, o);
      WaitListKeys(s.k, o);
    }
  }

  /** Every send, receive, peek and interrupt form, on every timeout, keeps the order. */
  lemma FifoStep(s: System, e: Event)
    requires Sound(s) && CanDo(s, e)
    ensures Sound(Do(s, e))
  {
    KernelMoves(s, e);
    match e
    case Send(item, _) => WrittenFifo(s, item);
    case SendFromIsr(item) => WrittenFifo(s, item);
    case Receive(_) => TakenFifo(s);
    case ReceiveFromIsr => TakenFifo(s);
    case _ =>
    hide Step, Good, Can;
  }

  ghost predicate Possible(s: System, es: seq<Event>)
    requires Sound(s)
    decreases |es|
  {
    es != [] ==> CanDo(s, es[0]) && (FifoStep(s, es[0]); Possible(Do(s, es[0]), es[1..]))
  }

  ghost function DoAll(s: System, es: seq<Event>): (r: System)
    requires Sound(s) && Possible(s, es)
    ensures Sound(r)
    decreases |es|
  {
    if es == [] then s else
      FifoStep(s, es[0]);
      DoAll(Do(s, es[0]), es[1..])
  }

  ghost predicate Unused(s: System) {
    Usable(s) && s.size > 0 && s.bytes == [] && s.sent == [] && s.received == []
  }

  /** Over every run, since the last reset: items read are a prefix of items written; the ring
      holds whole items; the next item read or peeked at is the oldest one unread; and the
      stored items and the free slots make up the capacity. */
  lemma FifoOverRuns(s: System, es: seq<Event>)
    requires Unused(s)
    requires (EmptyFifo(s); Possible(s, es))
    ensures var r := DoAll(s, es);
            && r.received <= r.sent && r.size > 0 && |r.bytes| <= r.capacity
            && |r.bytes| == (|r.sent| - |r.received|) * r.size
            && (|r.bytes| >= r.size <==> |r.received| < |r.sent|)
            && (|r.bytes| >= r.size ==> r.bytes[..r.size] == r.sent[|r.received|])
            && |r.bytes| / r.size + (r.capacity - |r.bytes|) / r.size == r.capacity / r.size
  {
    hide Possible, DoAll, Good;
    var r := DoAll(s, es);
    TakenFifo(r);
    ByteTests(r.bytes, r.capacity, r.size, Stored(r));
    CountPlusSpaces(r.bytes, r.capacity, r.size, Stored(r));
  }
}
