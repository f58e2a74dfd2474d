/** Runs of the stream buffer with one producer and one consumer: bytes arrive complete and
    in order; and exactly when a side blocks although it need not, which whole calls never do. */
module StreamRuns {
  import opened KernelTypes
  import opened Lists
  import opened KernelSpec
  import opened Placement
  import opened KernelRuns
  import opened WaitOrder
  import opened RingBufferObject
  import opened StreamBuffer

  /** accepted and received log the bytes since the last reset. */
  datatype System = System(
    k: Kernel, st: Stream, producer: TaskId, consumer: TaskId,
    accepted: seq<Byte>, received: seq<Byte>)

  /** Send and Receive are one pass of the loop. SendBlock and ReceiveBlock are the second half
      of a pass whose check came earlier. */
  datatype Event =
    | Send(data: seq<Byte>, timeout: TickCount, timedOut: bool)
    | Receive(max: nat, timeout: TickCount, timedOut: bool)
    | SendBlock(timeout: TickCount)
    | ReceiveBlock(timeout: TickCount)
    | SendFromIsr(data: seq<Byte>)
    | ReceiveFromIsr(max: nat)
    | SetTriggerLevel(level: nat)
    | Reset
    | Other(e: KernelRuns.Event)

  ghost predicate CanDo(s: System, e: Event) {
    match e
    case Send(data, timeout, timedOut) =>
      && s.k.running && s.k.current == Some(s.producer) && data != []
      && (!timedOut && |s.st.bytes| == s.st.capacity && timeout != NO_WAIT ==>
            Can(s.k, BlockOn(s.st.waitSend, timeout)))
    case Receive(max, timeout, timedOut) =>
      && s.k.running && s.k.current == Some(s.consumer) && max > 0
      && (!timedOut && |s.st.bytes| < s.st.trigger && timeout != NO_WAIT ==> Can(s.k, BlockOn(s.st.waitRecv, timeout)))
    case SendBlock(timeout) => s.k.current == Some(s.producer) && Can(s.k, BlockOn(s.st.waitSend, timeout))
    case ReceiveBlock(timeout) => s.k.current == Some(s.consumer) && Can(s.k, BlockOn(s.st.waitRecv, timeout))
    case Other(o) =>
      Can(s.k, o) && !Uses(o, s.st.waitSend) && !Uses(o, s.st.waitRecv)
    case SendFromIsr(_) => s.k.running
    case ReceiveFromIsr(_) => s.k.running
    case _ => true
  }

  ghost function Do(s: System, e: Event): System
    requires Good(s.k) && StreamShape(s.k, s.st) && CanDo(s, e)
  {
    match e
    case Send(data, timeout, timedOut) =>
      var (k, st, sent) := SendPass(s.k, s.st, data, timeout, timedOut);
      s.(k := k, st := st, accepted := if sent.Some? then s.accepted + data[..sent.value] else s.accepted)
    case Receive(max, timeout, timedOut) =>
      var (k, st, got) := ReceivePass(s.k, s.st, max, timeout, timedOut);
      s.(k := k, st := st, received := if got.Some? then s.received + got.value else s.received)
    case SendBlock(timeout) => s.(k := KernelSpec.BlockOn(s.k, s.st.waitSend, timeout))
    case ReceiveBlock(timeout) => s.(k := KernelSpec.BlockOn(s.k, s.st.waitRecv, timeout))
    case SendFromIsr(data) =>
      var (st, n) := Accept(s.st, data);
      s.(k := if n > 0 && |st.bytes| >= st.trigger then SignalFromIsr(s.k, st.waitRecv) else s.k,
         st := st, accepted := s.accepted + data[..n])
    case ReceiveFromIsr(max) =>
      var (st, got) := Deliver(s.st, max);
      s.(k := if got != [] then SignalFromIsr(s.k, st.waitSend) else s.k, st := st, received := s.received + got)
    case SetTriggerLevel(level) =>
      var (k, st, _) := SetTrigger(s.k, s.st, level);
      s.(k := k, st := st)
    case Reset =>
      s.(k := Reschedule(KernelSpec.WakeAll(s.k, s.st.waitSend)), st := s.st.(bytes := []),
         accepted := [], received := [])
    case Other(o) => s.(k := Step(s.k, o))
  }

  /** The kernel call the event amounts to. */
  ghost function KernelEvent(s: System, e: Event): Option<KernelRuns.Event>
    requires |s.st.bytes| <= s.st.capacity
  {
    match e
    case Send(data, timeout, timedOut) =>
      if timedOut then None
      else if |s.st.bytes| == s.st.capacity then
        if timeout == NO_WAIT then None else Some(BlockOn(s.st.waitSend, timeout))
      else if |Accept(s.st, data).0.bytes| >= s.st.trigger then Some(Wake(s.st.waitRecv)) else None
    case Receive(max, timeout, timedOut) =>
      if |s.st.bytes| < s.st.trigger && timeout != NO_WAIT && !timedOut then Some(BlockOn(s.st.waitRecv, timeout))
      else if Deliver(s.st, max).1 != [] then Some(Wake(s.st.waitSend)) else None
    case SendBlock(timeout) => Some(BlockOn(s.st.waitSend, timeout))
    case ReceiveBlock(timeout) => Some(BlockOn(s.st.waitRecv, timeout))
    case SendFromIsr(data) =>
      if Accept(s.st, data).1 > 0 && |Accept(s.st, data).0.bytes| >= s.st.trigger
      then Some(WakeFromIsr(s.st.waitRecv)) else None
    case ReceiveFromIsr(max) => if Deliver(s.st, max).1 != [] then Some(WakeFromIsr(s.st.waitSend)) else None
    case SetTriggerLevel(level) =>
      var n := if level == 0 then 1 else level;
      if n <= s.st.capacity && |s.st.bytes| >= n then Some(Wake(s.st.waitRecv)) else None
    case Reset => Some(WakeAll(s.st.waitSend))
    case Other(o) => Some(o)
  }

  lemma StreamIsKernelRun(s: System, e: Event)
    requires Good(s.k) && StreamShape(s.k, s.st) && CanDo(s, e)
    ensures match KernelEvent(s, e)
            case None => Do(s, e).k == s.k
            case Some(o) => Can(s.k, o) && Do(s, e).k == Step(s.k, o)
  {
    hide KernelSpec.BlockOn, KernelSpec.Wake, KernelSpec.WakeAll, SignalFromIsr, Good, Shape;
  }

  // ---------------------------------------------------------------- bytes

  ghost predicate BytesKept(s: System) {
    && s.accepted == s.received + s.st.bytes
    && |s.st.bytes| <= s.st.capacity && 1 <= s.st.trigger <= s.st.capacity
  }

  /** accepted == received + stored, byte for byte and in order, through every event. */
  lemma BytesStep(s: System, e: Event)
    requires Good(s.k) && StreamShape(s.k, s.st) && CanDo(s, e) && BytesKept(s)
    ensures BytesKept(Do(s, e))
  {
    hide KernelSpec.BlockOn, KernelSpec.Wake, KernelSpec.WakeAll, SignalFromIsr, Good, Shape, Can, Step;
    match e
    case Receive(max, _, _) => Split(s, max);
    case ReceiveFromIsr(max) => Split(s, max);
    case _ =>
  }

  lemma Split(s: System, max: nat)
    requires BytesKept(s)
    ensures s.received + s.st.bytes == s.received + Deliver(s.st, max).1 + Deliver(s.st, max).0.bytes
  {
    var n := Min(max, |s.st.bytes|);
    assert s.st.bytes == s.st.bytes[..n] + s.st.bytes[n..];
  }

  // ---------------------------------------------------------------- blocking

  /** Only the producer waits to send, and only while there is no room; only the consumer
      waits to receive, and only below the trigger level. */
  ghost predicate Blocking(s: System) {
    && Good(s.k) && StreamShape(s.k, s.st) && s.st.waitSend != s.st.waitRecv
    && (s.k.waits[s.st.waitSend] == [] || (s.k.waits[s.st.waitSend] == [s.producer] && |s.st.bytes| == s.st.capacity))
    && (s.k.waits[s.st.waitRecv] == [] || (s.k.waits[s.st.waitRecv] == [s.consumer] && |s.st.bytes| < s.st.trigger))
  }

  /** A side blocks although, since its check, room or enough bytes have come for it. */
  predicate Misses(s: System, e: Event) {
    match e
    case SendBlock(_) => |s.st.bytes| < s.st.capacity
    case ReceiveBlock(_) => |s.st.bytes| >= s.st.trigger
    case _ => false
  }

  /** The running task waits in no list. */
  lemma SoleFacts(k: Kernel, o: KernelRuns.Event, w: WaitId, t: TaskId)
    requires Good(k) && Can(k, o) && w in k.waits && (k.waits[w] == [] || k.waits[w] == [t])
    requires o.BlockOn? && o.w == w ==> k.current == Some(t)
    ensures o.BlockOn? && o.w == w ==> k.waits[w] == [] && InsertWaiter(k, w, t) == [t]
    ensures k.waits[w] == [t] ==> k.waits[w][1..] == []
    ensures k.waits[w] == [t] ==>
              || Without(k.waits[w], Expiring(k.tasks, k.delayed)) == []
              || Without(k.waits[w], Expiring(k.tasks, k.delayed)) == [t]
  {
    assert Waiting(k, w);
    assert k.waits[w] == [t] ==> t in k.waits[w];
    assert k.waits[w] == [t] ==> k.waits[w][1..] == [];
    if o.BlockOn? && o.w == w {
      assert k.tasks[t].state == Running;
      assert Prios(k.tasks, k.waits[w]) == [];
    }
  }

  /** A list holding at most one task, after a kernel call. */
  lemma SoleList(k: Kernel, o: KernelRuns.Event, w: WaitId, t: TaskId)
    requires Good(k) && Can(k, o) && w in k.waits && (k.waits[w] == [] || k.waits[w] == [t])
    requires o.BlockOn? && o.w == w ==> k.current == Some(t)
    ensures Good(Step(k, o)) && w in Step(k, o).waits
    ensures Step(k, o).waits[w] == [] || Step(k, o).waits[w] == [t]
    ensures o.BlockOn? && o.w == w ==> Step(k, o).waits[w] == [t]
    ensures !(o.BlockOn? && o.w == w) && k.waits[w] == [] ==> Step(k, o).waits[w] == []
    ensures (o.Wake? || o.WakeFromIsr? || o.WakeAll?) && o.w == w ==> Step(k, o).waits[w] == []
  {
    hide Step, Can, Good, InsertWaiter, Expiring;
    StepGood(k, o);
    WaitsStep(k, o, w);
    SoleFacts(k, o, w, t);
  }

  ghost predicate Settled(s: System, r: System) {
    Good(r.k) && StreamShape(r.k, r.st) && r.producer == s.producer && r.consumer == s.consumer
    && r.st.waitSend == s.st.waitSend && r.st.waitRecv == s.st.waitRecv && r.st.capacity == s.st.capacity
  }

  lemma StreamStaysShaped(s: System, e: Event)
    requires Blocking(s) && CanDo(s, e)
    ensures Settled(s, Do(s, e))
  {
    hide KernelSpec.BlockOn, KernelSpec.Wake, KernelSpec.WakeAll, SignalFromIsr, IdleReady, SelectNext, Can, Step;
    StreamIsKernelRun(s, e);
    if KernelEvent(s, e).Some? {
      StepGood(s.k, KernelEvent(s, e).value);
      WaitListKeys(s.k, KernelEvent(s, e).value);
    }
  }

  /** Every whole pass, interrupt, tick and other call keeps that so; a side that blocks some
      time after its check does so if and only if it still has to block. */
  lemma BlockingStep(s: System, e: Event)
    requires Blocking(s) && CanDo(s, e)
    ensures Blocking(Do(s, e)) <==> !Misses(s, e)
  {
    hide KernelSpec.BlockOn, KernelSpec.Wake, KernelSpec.WakeAll, SignalFromIsr, Good, Can, Step, Shape, Reschedule;
    StreamStaysShaped(s, e);
    StreamIsKernelRun(s, e);
    if KernelEvent(s, e).Some? {
      SoleList(s.k, KernelEvent(s, e).value, s.st.waitSend, s.producer);
      SoleList(s.k, KernelEvent(s, e).value, s.st.waitRecv, s.consumer);
    }
  }

  /** A separated block leaves both sides blocked if and only if the other side is: a
      consumer found too few bytes, the producer filled the buffer and blocked, and then the
      consumer blocks too. */
  lemma BothBlockIff(s: System, e: Event)
    requires Blocking(s) && CanDo(s, e) && (e.SendBlock? || e.ReceiveBlock?)
    ensures Settled(s, Do(s, e))
    ensures Do(s, e).k.waits[s.st.waitSend] != [] && Do(s, e).k.waits[s.st.waitRecv] != [] <==>
              s.k.waits[if e.SendBlock? then s.st.waitRecv else s.st.waitSend] != []
  {
    hide KernelSpec.BlockOn, Good, Can, Step, Shape;
    StreamStaysShaped(s, e);
    StreamIsKernelRun(s, e);
    WaitsStep(s.k, KernelEvent(s, e).value, s.st.waitSend);
    WaitsStep(s.k, KernelEvent(s, e).value, s.st.waitRecv);
  }

  // ---------------------------------------------------------------- over runs

  ghost predicate Sound(s: System) {
    Blocking(s) && BytesKept(s)
  }

  /** Every call is possible when it is made, and no side blocks that need not; whole calls
      never do. */
  ghost predicate Possible(s: System, es: seq<Event>)
    requires Sound(s)
    decreases |es|
  {
    es != [] ==>
      && CanDo(s, es[0]) && !Misses(s, es[0])
      && (SoundStep(s, es[0]); Possible(Do(s, es[0]), es[1..]))
  }

  lemma SoundStep(s: System, e: Event)
    requires Sound(s) && CanDo(s, e)
    ensures Sound(Do(s, e)) <==> !Misses(s, e)
  {
    hide Do, CanDo, Good;
    BlockingStep(s, e);
    BytesStep(s, e);
  }

  ghost function DoAll(s: System, es: seq<Event>): System
    requires Sound(s) && Possible(s, es)
    decreases |es|
  {
    if es == [] then s else
      SoundStep(s, es[0]);
      DoAll(Do(s, es[0]), es[1..])
  }

  lemma {:induction false} SoundOverRuns(s: System, es: seq<Event>)
    requires Sound(s) && Possible(s, es)
    ensures Sound(DoAll(s, es))
    decreases |es|
  {
    hide Do, CanDo, Inv, IdleReady, SelectNext, BytesKept;
    if es != [] {
      SoundStep(s, es[0]);
      SoundOverRuns(Do(s, es[0]), es[1..]);
    }
  }

  /** A stream nobody has used. */
  ghost predicate Unused(s: System) {
    && Good(s.k) && StreamShape(s.k, s.st) && s.st.waitSend != s.st.waitRecv
    && s.k.waits[s.st.waitSend] == [] && s.k.waits[s.st.waitRecv] == []
    && s.st.bytes == s.accepted == s.received == []
  }

  lemma UnusedSound(s: System)
    requires Unused(s)
    ensures Sound(s)
  {
  }

  /** Over every run: what was received since the last reset is a prefix of what was accepted,
      the rest is stored; a blocked consumer means fewer bytes than the trigger level, a
      blocked producer a full buffer; and never are both blocked. */
  lemma StreamOverRuns(s: System, es: seq<Event>)
    requires Unused(s)
    requires (UnusedSound(s); Possible(s, es))
    ensures var r := DoAll(s, es);
            && r.received <= r.accepted && r.accepted == r.received + r.st.bytes
            && r.st.waitRecv in r.k.waits && r.st.waitSend in r.k.waits
            && (r.k.waits[r.st.waitRecv] != [] ==> |r.st.bytes| < r.st.trigger)
            && (r.k.waits[r.st.waitSend] != [] ==> |r.st.bytes| == r.st.capacity)
            && !(r.k.waits[r.st.waitRecv] != [] && r.k.waits[r.st.waitSend] != [])
  {
    SoundOverRuns(s, es);
    hide Good, Shape, DoAll, Possible;
  }

  /** Without resets the log of accepted bytes is all of them. */
  lemma AcceptedOnlyGrows(s: System, e: Event)
    requires Good(s.k) && StreamShape(s.k, s.st) && CanDo(s, e) && !e.Reset?
    ensures s.accepted <= Do(s, e).accepted && s.received <= Do(s, e).received
  {
    hide KernelSpec.BlockOn, KernelSpec.Wake, KernelSpec.WakeAll, SignalFromIsr, Good, Shape, Can, Step;
  }
}
