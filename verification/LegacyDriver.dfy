/** The poll-based driver's registered resources (crates/monoio/src/driver/legacy/mod.rs): a slab of ScheduledIo, each
    going through the steps of Readiness. */
module LegacyDriver {
  import opened Prelude
  import opened Slab
  import opened Readiness

  const TOKEN_WAKEUP: nat := 0x8000_0000

  /** The token of the driver's own waker is also the key of one slot that the slab can issue: a resource registered
      there would get no events. */
  lemma WakeupTokenIsAKey(p: Place)
    requires p.page < NUM_PAGES && p.slot < PageSize(p.page)
    ensures KeyAt(p) == TOKEN_WAKEUP <==> p == Place(25, 64)
  {
    LastPage();
    GetPageIdInverts(p.page, p.slot);
    GetPageIdInverts(25, 64);
  }

  function AfterEvent(ios: map<nat, Io>, token: nat, ready: Ready): map<nat, Io> {
    if token in ios then With(ios, token, Dispatch(ios[token], ready)) else ios
  }

  /** The resources, and the wakes so far. */
  datatype Driven = Driven(ios: map<nat, Io>, woken: seq<Waker>)

  /** One event of a poll; the driver's own token is skipped. */
  function AfterOne(d: Driven, e: MioEvent): Driven {
    if e.token == TOKEN_WAKEUP || e.token !in d.ios then d
    else Driven(AfterEvent(d.ios, e.token, ReadyOf(e)), d.woken + WakersCalled(d.ios[e.token], ReadyOf(e)))
  }

  /** What the events of one poll do, one by one. */
  function AfterEvents(d: Driven, events: seq<MioEvent>): Driven
    decreases |events|
  {
    if events == [] then d else AfterEvents(AfterOne(d, events[0]), events[1..])
  }

  /** What they do to one resource. */
  function Delivered(io: Io, events: seq<MioEvent>, token: nat): Io
    decreases |events|
  {
    if events == [] then io
    else Delivered(if events[0].token == token then Dispatch(io, ReadyOf(events[0])) else io, events[1..], token)
  }

  /** Each resource gets its own events, in order, and no others, except that the one at the waker's token gets none. */
  lemma {:induction false} EventsReachTheirResource(d: Driven, events: seq<MioEvent>, k: nat)
    ensures AfterEvents(d, events).ios.Keys == d.ios.Keys && d.woken <= AfterEvents(d, events).woken
    ensures k in d.ios ==>
              AfterEvents(d, events).ios[k] == if k == TOKEN_WAKEUP then d.ios[k] else Delivered(d.ios[k], events, k)
    decreases |events|
  {
    if events != [] {
      EventsReachTheirResource(AfterOne(d, events[0]), events[1..], k);
    }
  }

  /** The direction is ready, and no cancel has come in. */
  predicate MakesCall(ready: Ready, d: Direction) { ready & Mask(d) != EMPTY && ready & CancelBit(d) == EMPTY }

  lemma CancelReachesOneDirection(io: Io, d: Direction)
    ensures WakersCalled(io, CancelBit(d)) == if WakerOf(io, d).Some? then [WakerOf(io, d).value] else []
    ensures WakerOf(Dispatch(io, CancelBit(d)), Other(d)) == WakerOf(io, Other(d))
  {
  }

  /** The event `e` concerns direction `d` of the resource at `k`. */
  predicate Concerns(e: MioEvent, k: nat, d: Direction) {
    e.token == k && k != TOKEN_WAKEUP && if d.Read? then e.readable || e.readClosed else e.writable || e.writeClosed
  }

  /** Whoever waits for a direction that one of the events concerns is woken by the poll that brings it. */
  lemma {:induction false} WaitersAreWoken(d: Driven, events: seq<MioEvent>, i: nat, dir: Direction)
    requires i < |events| && Concerns(events[i], events[i].token, dir) && events[i].token in d.ios
    requires WakerOf(d.ios[events[i].token], dir).Some?
    ensures WakerOf(d.ios[events[i].token], dir).value in AfterEvents(d, events).woken
    decreases |events|
  {
    var k, t := events[i].token, AfterOne(d, events[0]);
    EventsReachTheirResource(t, events[1..], k);
    if WakerOf(d.ios[k], dir).value !in t.woken {
      WaitersAreWoken(t, events[1..], i - 1, dir);
    }
  }

  /** The driver; the ScheduledIo of a key is worked on through as_mut, here an object read from the slab and written
      back to it. */
  class LegacyInner {
    const ioDispatch: Slab<Io>
    var woken: seq<Waker>

    ghost predicate Valid()
      reads this, ioDispatch, ioDispatch.Repr
    {
      && ioDispatch.Valid() && this !in ioDispatch.Repr
      && (forall k :: k in ioDispatch.contents ==> WaitsOnlyIfNotReady(ioDispatch.contents[k]))
    }

    ghost function View(): Driven
      reads this, ioDispatch
    {
      Driven(ioDispatch.contents, woken)
    }

    ghost function Ios(): map<nat, Io>
      reads ioDispatch
    {
      ioDispatch.contents
    }

    constructor ()
      ensures Valid() && Ios() == map[] && fresh(ioDispatch.Repr)
    {
      ioDispatch := new Slab<Io>();
      woken := [];
    }

    /** Adds the bits of `ready` and wakes whoever waits for them. An unknown token is ignored. */
    method DispatchTo(token: nat, ready: Ready)
      requires Valid() && token <= USIZE_MAX
      modifies this`woken, ioDispatch.Repr
      ensures Valid() && ioDispatch.Repr == old(ioDispatch.Repr) && Ios() == AfterEvent(old(Ios()), token, ready)
      ensures woken == old(woken) + if token in old(Ios()) then WakersCalled(old(Ios())[token], ready) else []
    {
      var found := ioDispatch.Get(token);
      if found.None? {
        return;
      }
      DispatchKeepsWaits(found.value, ready);
      var io, called := DispatchScheduled(found.value, ready);
      ioDispatch.RefWrite(token, io);
      woken := woken + called;
    }

    /** The part of dispatch that works on the resource. */
    method DispatchScheduled(before: Io, ready: Ready) returns (io: Io, called: seq<Waker>)
      ensures io == Dispatch(before, ready) && called == WakersCalled(before, ready)
      ensures io.readiness == before.readiness | ready
    {
      var sio := new ScheduledIo(before);
      sio.SetReadiness(curr => curr | ready);
      called := sio.Wake(ready);
      io := sio.View();
    }

    /** A cancel is an event of its direction. */
    method CancelOp(index: nat, d: Direction)
      requires Valid() && index <= USIZE_MAX
      modifies this`woken, ioDispatch.Repr
      ensures Valid() && ioDispatch.Repr == old(ioDispatch.Repr) && Ios() == AfterEvent(old(Ios()), index, CancelBit(d))
      ensures woken == old(woken) + if index in old(Ios()) && WakerOf(old(Ios())[index], d).Some?
                                    then [WakerOf(old(Ios())[index], d).value] else []
      ensures index in Ios() ==> WakerOf(Ios()[index], Other(d)) == WakerOf(old(Ios())[index], Other(d))
    {
      var ready := match d { case Read => READ_CANCELED case Write => WRITE_CANCELED };
      if index in Ios() {
        CancelReachesOneDirection(Ios()[index], d);
      }
      DispatchTo(index, ready);
    }

    method DispatchOne(e: MioEvent)
      requires Valid() && e.token <= USIZE_MAX
      modifies this`woken, ioDispatch.Repr
      ensures Valid() && ioDispatch.Repr == old(ioDispatch.Repr)
      ensures View() == AfterOne(old(View()), e)
    {
      var ready := FromMio(e);
      if e.token != TOKEN_WAKEUP {
        DispatchTo(e.token, ready);
      }
    }

    /** The events of one poll. The driver's own token is skipped. */
    method DispatchAll(events: seq<MioEvent>)
      requires Valid() && forall e :: e in events ==> e.token <= USIZE_MAX
      modifies this`woken, ioDispatch.Repr
      ensures Valid() && ioDispatch.Repr == old(ioDispatch.Repr) && View() == AfterEvents(old(View()), events)
    {
      for i := 0 to |events|
        invariant Valid() && ioDispatch.Repr == old(ioDispatch.Repr)
        invariant AfterEvents(View(), events[i..]) == AfterEvents(old(View()), events)
      {
        assert events[i..][1..] == events[i + 1..];
        DispatchOne(events[i]);
      }
    }

    /** poll_op, where `call` is what legacy_call would answer; `called` tells whether it was made. Without an
        interest it is made at once; with one, the resource must be registered (else the code panics: "scheduled_io
        lost"). */
    method PollOperation(interest: Option<(Direction, nat)>, w: Waker, call: CallResult)
        returns (r: Poll<Completion>, called: bool)
      requires Valid() && (interest.Some? ==> interest.value.1 in Ios() && interest.value.1 <= USIZE_MAX)
      modifies ioDispatch.Repr
      ensures Valid() && ioDispatch.Repr == old(ioDispatch.Repr)
      ensures interest.None? ==> called && r == Poll.Ready(Called(call)) && Ios() == old(Ios())
      ensures interest.Some? ==>
                var (d, k) := interest.value;
                && Ios() == With(old(Ios()), k, PollOp(old(Ios())[k], d, w, call).0)
                && r == PollOp(old(Ios())[k], d, w, call).1
                && var ready := old(Ios())[k].readiness;
                   && called == MakesCall(ready, d)
                   && r == if called && !call.WouldBlock? then Poll.Ready(Called(call))
                           else if ready & CancelBit(d) != EMPTY then Poll.Ready(Canceled) else Pending
    {
      if interest.None? {
        return Poll.Ready(Called(call)), true;
      }
      var (d, k) := interest.value;
      var found := ioDispatch.Get(k);
      assert found.Some?;
      PollKeepsWaits(found.value, d, w, call);
      var io;
      io, r, called := PollScheduled(found.value, d, w, call);
      ioDispatch.RefWrite(k, io);
    }

    /** The part of poll_op that works on the resource. */
    method PollScheduled(before: Io, d: Direction, w: Waker, call: CallResult)
        returns (io: Io, r: Poll<Completion>, called: bool)
      ensures (io, r) == PollOp(before, d, w, call) && called == MakesCall(before.readiness, d)
      ensures r == if called && !call.WouldBlock? then Poll.Ready(Called(call))
                   else if before.readiness & CancelBit(d) != EMPTY then Poll.Ready(Canceled) else Pending
    {
      CancelIsConsumed(before, d, w, call);
      PollAnswers(before, d, w, call);
      var sio := new ScheduledIo(before);
      r, called := PollWith(sio, d, w, call);
      io := sio.View();
    }

    method PollWith(sio: ScheduledIo, d: Direction, w: Waker, call: CallResult)
        returns (r: Poll<Completion>, called: bool)
      modifies sio
      ensures (sio.View(), r) == PollOp(old(sio.View()), d, w, call)
      ensures called <==> old(sio.readiness) & Mask(d) != EMPTY && !IsCanceled(old(sio.readiness) & Mask(d))
    {
      var readiness := sio.PollReadiness(w, d);
      if readiness.Pending? {
        return Pending, false;
      }
      assert Mask(d) & sio.readiness == sio.readiness & Mask(d);
      if IsCanceled(readiness.value) {
        sio.ClearReadiness(readiness.value & CANCELED);
        return Poll.Ready(Canceled), false;
      }
      called := true;
      match call {
        case Done(_) => r := Poll.Ready(Called(call));
        case WouldBlock =>
          sio.ClearReadiness(Mask(d));
          sio.PutWaker(w, d);
          r := Pending;
        case Failed(_) => r := Poll.Ready(Called(call));
      }
    }

    /** register; `accepted` is the answer of the OS, which undoes the insertion if it refuses. None as first result is
        the slab's "out of slot" panic. */
    method Register(accepted: bool) returns (token: Option<nat>, ok: bool)
      requires Valid()
      modifies ioDispatch.Repr
      ensures Valid() && fresh(ioDispatch.Repr - old(ioDispatch.Repr))
      ensures ok == (token.Some? && accepted)
      ensures ok ==> token.value !in old(Ios()) && Ios() == With(old(Ios()), token.value, NEW_IO)
      ensures !ok ==> Ios() == old(Ios())
      ensures token.None? ==>
                forall i :: old(ioDispatch.wPageId) <= i < NUM_PAGES ==>
                  i < |ioDispatch.parts| && |ioDispatch.parts[i]| == PageSize(i)
    {
      token := ioDispatch.Insert(NEW_IO);
      if token.None? {
        return token, false;
      }
      if accepted {
        return token, true;
      }
      var removed := ioDispatch.Remove(token.value);
      WithThenWithout(old(Ios()), token.value, NEW_IO);
      ok := false;
    }

    /** deregister: the resource leaves the slab if the OS lets it go. */
    method Deregister(token: nat, accepted: bool) returns (ok: bool)
      requires Valid() && token <= USIZE_MAX
      modifies ioDispatch.Repr
      ensures Valid() && ioDispatch.Repr == old(ioDispatch.Repr) && ok == accepted
      ensures Ios() == if accepted then Without(old(Ios()), token) else old(Ios())
    {
      if accepted {
        var removed := ioDispatch.Remove(token);
        assert removed.None? ==> Without(old(Ios()), token) == old(Ios());
      }
      ok := accepted;
    }
  }
}
