/** Readiness of a registered resource and the tasks waiting for it (crates/monoio/src/driver/ready.rs and
    scheduled_io.rs). */
module Readiness {
  import opened Prelude

  type Waker = nat

  // ----- the bits -----

  type Ready = bv8

  const EMPTY: Ready := 0
  const READABLE: Ready := 0x01
  const WRITABLE: Ready := 0x02
  const READ_CLOSED: Ready := 0x04
  const WRITE_CLOSED: Ready := 0x08
  const READ_CANCELED: Ready := 0x10
  const WRITE_CANCELED: Ready := 0x20
  const CANCELED: Ready := READ_CANCELED | WRITE_CANCELED
  const READ_ALL: Ready := READABLE | READ_CLOSED | READ_CANCELED
  const WRITE_ALL: Ready := WRITABLE | WRITE_CLOSED | WRITE_CANCELED

  datatype Direction = Read | Write

  function Other(d: Direction): Direction { if d.Read? then Write else Read }

  function Mask(d: Direction): Ready {
    match d
    case Read => READABLE | READ_CLOSED | READ_CANCELED
    case Write => WRITABLE | WRITE_CLOSED | WRITE_CANCELED
  }

  function CancelBit(d: Direction): Ready {
    match d
    case Read => READ_CANCELED
    case Write => WRITE_CANCELED
  }

  function IsReadable(r: Ready): bool { r & READ_ALL != EMPTY }

  function IsWritable(r: Ready): bool { r & WRITE_ALL != EMPTY }

  function IsCanceled(r: Ready): bool { r & CANCELED != EMPTY }

  /** Set difference. */
  function Minus(r: Ready, s: Ready): Ready { r & !s }

  predicate OneBit(m: Ready) {
    m == 0x01 || m == 0x02 || m == 0x04 || m == 0x08 || m == 0x10 || m == 0x20 || m == 0x40 || m == 0x80
  }

  /** A Ready is the set of its bits: `|`, `&` and `-` are union, intersection and difference. */
  lemma ReadyIsASet(r: Ready, s: Ready, m: Ready)
    requires OneBit(m)
    ensures (r | s) & m != EMPTY <==> r & m != EMPTY || s & m != EMPTY
    ensures (r & s) & m != EMPTY <==> r & m != EMPTY && s & m != EMPTY
    ensures Minus(r, s) & m != EMPTY <==> r & m != EMPTY && s & m == EMPTY
  {
  }

  /** The two directions share no bit, and every bit an event or a cancel can set belongs to one of them. */
  lemma DirectionsAreDisjoint(d: Direction)
    ensures Mask(d) & Mask(Other(d)) == EMPTY
    ensures Mask(Read) == READ_ALL && Mask(Write) == WRITE_ALL
    ensures Mask(Read) | Mask(Write) == 0x3F
    ensures CancelBit(d) == Mask(d) & CANCELED
  {
  }

  /** What from_mio reads off an event. */
  datatype MioEvent = MioEvent(token: nat, readable: bool, writable: bool, readClosed: bool, writeClosed: bool)

  function ReadyOf(e: MioEvent): (ready: Ready)
    ensures (ready & READABLE != 0) == e.readable && (ready & WRITABLE != 0) == e.writable
    ensures (ready & READ_CLOSED != 0) == e.readClosed && (ready & WRITE_CLOSED != 0) == e.writeClosed
    ensures !IsCanceled(ready)
    ensures (IsReadable(ready) <==> e.readable || e.readClosed) && (IsWritable(ready) <==> e.writable || e.writeClosed)
  {
    (if e.readable then READABLE else EMPTY) | (if e.writable then WRITABLE else EMPTY)
    | (if e.readClosed then READ_CLOSED else EMPTY) | (if e.writeClosed then WRITE_CLOSED else EMPTY)
  }

  method FromMio(e: MioEvent) returns (ready: Ready)
    ensures ready == ReadyOf(e)
  {
    ready := EMPTY;
    if e.readable { ready := ready | READABLE; }
    if e.writable { ready := ready | WRITABLE; }
    if e.readClosed { ready := ready | READ_CLOSED; }
    if e.writeClosed { ready := ready | WRITE_CLOSED; }
  }

  // ----- what one resource goes through -----

  datatype Io = Io(readiness: Ready, reader: Option<Waker>, writer: Option<Waker>)

  const NEW_IO := Io(EMPTY, None, None)

  function WakerOf(io: Io, d: Direction): Option<Waker> { if d.Read? then io.reader else io.writer }

  /** Nobody waits for a direction that is ready. */
  predicate WaitsOnlyIfNotReady(io: Io) {
    forall d: Direction :: WakerOf(io, d).Some? ==> io.readiness & Mask(d) == EMPTY
  }

  /** What the system call answers, if it is made. */
  datatype CallResult = Done(n: nat) | WouldBlock | Failed(code: int)

  datatype Completion = Called(result: CallResult) | Canceled

  function SetWaker(io: Io, d: Direction, w: Waker): Io {
    match d
    case Read => io.(reader := Some(w))
    case Write => io.(writer := Some(w))
  }

  function Wakened(io: Io, ready: Ready): Io {
    io.(reader := if IsReadable(ready) then None else io.reader,
        writer := if IsWritable(ready) then None else io.writer)
  }

  /** An event, or a cancel, that sets the bits of `ready`. */
  function Dispatch(io: Io, ready: Ready): Io {
    Wakened(io.(readiness := io.readiness | ready), ready)
  }

  /** The wakers it wakes, reader first. */
  function WakersCalled(io: Io, ready: Ready): seq<Waker> {
    (if IsReadable(ready) && io.reader.Some? then [io.reader.value] else [])
    + (if IsWritable(ready) && io.writer.Some? then [io.writer.value] else [])
  }

  /** One poll_op in direction `d` by the task behind `w`. */
  function PollOp(io: Io, d: Direction, w: Waker, call: CallResult): (Io, Poll<Completion>) {
    var ready := Mask(d) & io.readiness;
    if ready == EMPTY then (SetWaker(io, d, w), Pending)
    else if IsCanceled(ready) then (io.(readiness := Minus(io.readiness, ready & CANCELED)), Poll.Ready(Canceled))
    else if call.WouldBlock? then (SetWaker(io.(readiness := Minus(io.readiness, Mask(d))), d, w), Pending)
    else (io, Poll.Ready(Called(call)))
  }

  datatype Event =
    | Polled(d: Direction, w: Waker, call: CallResult)
    | Dispatched(ready: Ready)
    | MadeWritable   // set_writable, on a resource nobody has polled yet

  function Next(io: Io, e: Event): Io {
    match e
    case Polled(d, w, call) => PollOp(io, d, w, call).0
    case Dispatched(ready) => Dispatch(io, ready)
    case MadeWritable => io.(readiness := io.readiness | WRITABLE)
  }

  function WokenBy(io: Io, e: Event): seq<Waker> { if e.Dispatched? then WakersCalled(io, e.ready) else [] }

  // ----- one step -----

  lemma PollKeepsWaits(io: Io, d: Direction, w: Waker, call: CallResult)
    requires WaitsOnlyIfNotReady(io)
    ensures WaitsOnlyIfNotReady(PollOp(io, d, w, call).0)
  {
  }

  lemma DispatchKeepsWaits(io: Io, ready: Ready)
    requires WaitsOnlyIfNotReady(io)
    ensures WaitsOnlyIfNotReady(Dispatch(io, ready))
  {
  }

  /** set_writable wakes nobody, so it is harmless exactly when no writer waits. */
  lemma SetWritableIsSafeIff(io: Io)
    requires WaitsOnlyIfNotReady(io)
    ensures WaitsOnlyIfNotReady(Next(io, MadeWritable)) <==> io.writer.None?
  {
    var t := Next(io, MadeWritable);
    assert WakerOf(t, Write) == io.writer && t.readiness & Mask(Write) != EMPTY;
    assert io.reader.Some? ==> WakerOf(io, Read).Some? && io.readiness & Mask(Read) == EMPTY;
    assert (io.readiness | WRITABLE) & Mask(Read) == io.readiness & Mask(Read);
  }

  /** A pending poll leaves its waker in its direction's slot, and no readiness there. */
  lemma PendingPollWaits(io: Io, d: Direction, w: Waker, call: CallResult)
    requires PollOp(io, d, w, call).1.Pending?
    ensures var t := PollOp(io, d, w, call).0;
      WakerOf(t, d) == Some(w) && t.readiness & Mask(d) == EMPTY
  {
  }

  /** A poll changes nothing about the other direction, whatever it does. */
  lemma PollLeavesOtherDirection(io: Io, d: Direction, w: Waker, call: CallResult)
    ensures var t := PollOp(io, d, w, call).0;
      && WakerOf(t, Other(d)) == WakerOf(io, Other(d))
      && t.readiness & Mask(Other(d)) == io.readiness & Mask(Other(d))
  {
  }

  /** A cancel is answered once: the poll that reports it consumes it, and only it. */
  lemma CancelIsConsumed(io: Io, d: Direction, w: Waker, call: CallResult)
    ensures var (t, r) := PollOp(io, d, w, call);
      && (r == Poll.Ready(Canceled) <==> io.readiness & CancelBit(d) != EMPTY)
      && (r == Poll.Ready(Canceled) ==> t == io.(readiness := Minus(io.readiness, CancelBit(d))))
      && t.readiness & CancelBit(d) == EMPTY
  {
  }

  /** An event adds its bits and takes none away. */
  lemma DispatchAddsBits(io: Io, ready: Ready, m: Ready)
    requires OneBit(m)
    ensures Dispatch(io, ready).readiness & m != EMPTY <==> io.readiness & m != EMPTY || ready & m != EMPTY
  {
    ReadyIsASet(io.readiness, ready, m);
  }

  /** Whoever waits in a direction of the event is woken and leaves his slot; the other slot is as it was. */
  lemma DispatchWakes(io: Io, ready: Ready, d: Direction)
    ensures WakerOf(Dispatch(io, ready), d) == if ready & Mask(d) != EMPTY then None else WakerOf(io, d)
    ensures forall w :: w in WakersCalled(io, ready) <==>
                          exists d': Direction :: ready & Mask(d') != EMPTY && WakerOf(io, d') == Some(w)
    ensures ready & Mask(d) != EMPTY && WakerOf(io, d).Some? ==> WakerOf(io, d).value in WakersCalled(io, ready)
  {
    forall w | w in WakersCalled(io, ready)
      ensures exists d': Direction :: ready & Mask(d') != EMPTY && WakerOf(io, d') == Some(w)
    {
      assert (ready & Mask(Read) != EMPTY && WakerOf(io, Read) == Some(w))
             || (ready & Mask(Write) != EMPTY && WakerOf(io, Write) == Some(w));
    }
  }

  /** What a poll answers, and what it does to the bits of its direction: it is pending if none is set, or if none is a
      cancel and the call would block, which clears them; else it hands on the call's result, and they stay. */
  lemma PollAnswers(io: Io, d: Direction, w: Waker, call: CallResult)
    ensures var (t, r) := PollOp(io, d, w, call);
      var ready, canceled := io.readiness & Mask(d) != EMPTY, io.readiness & CancelBit(d) != EMPTY;
      && (r.Pending? <==> !ready || (!canceled && call.WouldBlock?))
      && (ready && !canceled && !call.WouldBlock? ==> r == Poll.Ready(Called(call)) && t == io)
      && (r.Pending? ==> t.readiness & Mask(d) == EMPTY && WakerOf(t, d) == Some(w))
  {
    CancelIsConsumed(io, d, w, call);
  }

  // ----- every run -----

  ghost predicate Run(ios: seq<Io>, events: seq<Event>) {
    && |ios| == |events| + 1 && ios[0] == NEW_IO
    && (forall i {:trigger events[i]} :: 0 <= i < |events| ==>
          ios[i + 1] == Next(ios[i], events[i]) && (events[i].MadeWritable? ==> ios[i].writer.None?))
  }

  lemma {:induction false} RunKeepsWaits(ios: seq<Io>, events: seq<Event>, i: nat)
    requires Run(ios, events) && i < |ios|
    ensures WaitsOnlyIfNotReady(ios[i])
  {
    if i > 0 {
      RunKeepsWaits(ios, events, i - 1);
      match events[i - 1]
      case Polled(d, w, call) => PollKeepsWaits(ios[i - 1], d, w, call);
      case Dispatched(ready) => DispatchKeepsWaits(ios[i - 1], ready);
      case MadeWritable => SetWritableIsSafeIff(ios[i - 1]);
    }
  }

  predicate PollsIn(e: Event, d: Direction) { e.Polled? && e.d == d }

  predicate ReachesDirection(e: Event, d: Direction) { e.Dispatched? && e.ready & Mask(d) != EMPTY }

  /** A task whose poll was pending stays in its slot until something is heard in its direction. */
  lemma {:induction false} StaysWaiting(ios: seq<Io>, events: seq<Event>, i: nat, j: nat)
    requires Run(ios, events) && i < j <= |events| && events[i].Polled?
    requires PollOp(ios[i], events[i].d, events[i].w, events[i].call).1.Pending?
    requires forall k :: i < k < j ==> !PollsIn(events[k], events[i].d) && !ReachesDirection(events[k], events[i].d)
    ensures WakerOf(ios[j], events[i].d) == Some(events[i].w)
  {
    var d := events[i].d;
    if j == i + 1 {
      PendingPollWaits(ios[i], d, events[i].w, events[i].call);
    } else {
      StaysWaiting(ios, events, i, j - 1);
      var e := events[j - 1];
      if e.Polled? {
        PollLeavesOtherDirection(ios[j - 1], e.d, e.w, e.call);
      }
    }
  }

  /** The first event or cancel in the direction of a pending poll wakes the task that polled. */
  lemma NextEventWakes(ios: seq<Io>, events: seq<Event>, i: nat, j: nat)
    requires Run(ios, events) && i < j < |events| && events[i].Polled?
    requires PollOp(ios[i], events[i].d, events[i].w, events[i].call).1.Pending?
    requires forall k :: i < k < j ==> !PollsIn(events[k], events[i].d) && !ReachesDirection(events[k], events[i].d)
    requires ReachesDirection(events[j], events[i].d)
    ensures events[i].w in WokenBy(ios[j], events[j])
    ensures ios[j + 1].readiness & Mask(events[i].d) != EMPTY && WakerOf(ios[j + 1], events[i].d) == None
  {
    StaysWaiting(ios, events, i, j);
  }

  /** A cancel that nobody has polled since is what the next poll of its direction reports. */
  lemma {:induction false} CancelIsReported(ios: seq<Io>, events: seq<Event>, i: nat, j: nat, d: Direction)
    requires Run(ios, events) && i < j <= |events| && events[i].Dispatched?
    requires events[i].ready & CancelBit(d) != EMPTY
    requires forall k :: i < k < j ==> !PollsIn(events[k], d)
    ensures forall w, call :: PollOp(ios[j], d, w, call).1 == Poll.Ready(Canceled)
  {
    if j > i + 1 {
      CancelIsReported(ios, events, i, j - 1, d);
      CancelIsConsumed(ios[j - 1], d, 0, WouldBlock);
      var e := events[j - 1];
      if e.Polled? {
        PollLeavesOtherDirection(ios[j - 1], e.d, e.w, e.call);
      }
    }
    forall w, call
      ensures PollOp(ios[j], d, w, call).1 == Poll.Ready(Canceled)
    {
      CancelIsConsumed(ios[j], d, w, call);
    }
  }

  /** Readiness that nobody has polled for since is not lost, whatever else happens: the next poll of its direction is
      ready, with the result of the call unless it reports a cancel, for every call that does not block. */
  lemma {:induction false} ReadinessIsKept(ios: seq<Io>, events: seq<Event>, i: nat, j: nat, d: Direction)
    requires Run(ios, events) && i < j <= |events| && ReachesDirection(events[i], d)
    requires forall k :: i < k < j ==> !PollsIn(events[k], d)
    ensures ios[j].readiness & Mask(d) != EMPTY
    ensures forall w, call: CallResult :: !call.WouldBlock? ==>
              var r := PollOp(ios[j], d, w, call).1;
              r == Poll.Ready(Called(call)) || r == Poll.Ready(Canceled)
  {
    if j == i + 1 {
      DispatchKeepsReadiness(ios[i], events[i].ready, d);
    } else {
      ReadinessIsKept(ios, events, i, j - 1, d);
      match events[j - 1]
      case Polled(d', w, call) => PollLeavesOtherDirection(ios[j - 1], d', w, call);
      case Dispatched(ready) => DispatchKeepsReadiness(ios[j - 1], ready, d);
      case MadeWritable => DispatchKeepsReadiness(ios[j - 1], WRITABLE, d);
    }
    forall w, call: CallResult | !call.WouldBlock?
      ensures var r := PollOp(ios[j], d, w, call).1; r == Poll.Ready(Called(call)) || r == Poll.Ready(Canceled)
    {
      PollAnswers(ios[j], d, w, call);
    }
  }

  lemma DispatchKeepsReadiness(io: Io, ready: Ready, d: Direction)
    requires io.readiness & Mask(d) != EMPTY || ready & Mask(d) != EMPTY
    ensures Dispatch(io, ready).readiness & Mask(d) != EMPTY
  {
    match d
    case Read =>
    case Write =>
  }

  // ----- as the code has it -----

  class ScheduledIo {
    var readiness: Ready
    var reader: Option<Waker>
    var writer: Option<Waker>

    function View(): Io
      reads this
    {
      Io(readiness, reader, writer)
    }

    constructor (io: Io)
      ensures View() == io
    {
      readiness, reader, writer := io.readiness, io.reader, io.writer;
    }

    method SetWritable()
      modifies this
      ensures View() == Next(old(View()), MadeWritable)
    {
      readiness := readiness | WRITABLE;
    }

    method SetReadiness(f: Ready -> Ready)
      modifies this
      ensures View() == old(View()).(readiness := f(old(readiness)))
    {
      readiness := f(readiness);
    }

    method Wake(ready: Ready) returns (woken: seq<Waker>)
      modifies this
      ensures View() == Wakened(old(View()), ready) && woken == WakersCalled(old(View()), ready)
    {
      woken := [];
      if IsReadable(ready) {
        if reader.Some? {
          woken := woken + [reader.value];
          reader := None;
        }
      }
      if IsWritable(ready) {
        if writer.Some? {
          woken := woken + [writer.value];
          writer := None;
        }
      }
    }

    method ClearReadiness(ready: Ready)
      modifies this
      ensures View() == old(View()).(readiness := Minus(old(readiness), ready))
    {
      readiness := Minus(readiness, ready);
    }

    method PollReadiness(w: Waker, d: Direction) returns (r: Poll<Ready>)
      modifies this
      ensures r.Ready? ==> r.value == Mask(d) & old(readiness) && r.value != EMPTY && View() == old(View())
      ensures r.Pending? ==> Mask(d) & old(readiness) == EMPTY && View() == SetWaker(old(View()), d, w)
    {
      var ready := Mask(d) & readiness;
      if ready != EMPTY {
        return Poll.Ready(ready);
      }
      PutWaker(w, d);
      return Pending;
    }

    method PutWaker(w: Waker, d: Direction)
      modifies this
      ensures View() == SetWaker(old(View()), d, w)
    {
      match d {
        case Read =>
          match reader {
            case Some(existing) => if existing != w { reader := Some(w); }
            case None => reader := Some(w);
          }
        case Write =>
          match writer {
            case Some(existing) => if existing != w { writer := Some(w); }
            case None => writer := Some(w);
          }
      }
    }
  }
}
