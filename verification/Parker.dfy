/** inner_park of both drivers as the code runs it (crates/monoio/src/driver/uring/mod.rs,
    crates/monoio/src/driver/legacy/mod.rs), each of its accesses to shared memory a move of Parking, with the other
    threads doing theirs in between. */
module Parker {
  import opened Prelude
  import opened Parking

  /** What happens outside the owner thread. */
  datatype Event = Arrive(thread: Thread, waker: Waker) | Go(thread: Thread) | Kernel

  class Owner {
    const kind: Driver
    var awake: bool
    var token: bool               // the eventfd counter, or the mio waker
    var installed: bool
    var read: Read
    var channel: seq<Waker>
    var woken: seq<Waker>
    var senders: map<Thread, SenderPc>
    var coming: seq<Event>        // what the others will do
    ghost var sent: seq<Waker>
    ghost var pc: OwnerPc
    ghost var lost: bool          // an early reap has taken a wake away

    ghost function View(): State
      reads this
    {
      State(kind, pc, awake, token, installed, read, channel, sent, woken, senders)
    }

    ghost predicate Valid()
      reads this
    {
      Reachable(kind, View()) && (!lost ==> Inv(View()))
    }

    constructor (kind: Driver, coming: seq<Event>)
      ensures Valid() && View() == Start(kind) && !lost
    {
      this.kind, this.coming := kind, coming;
      awake, token, installed, read := true, false, false, NoRead;
      channel, woken, senders, sent := [], [], map[], [];
      pc, lost := Out, false;
      new;
      StartReachable(kind);
    }

    /** The state has just changed from `before` by the move `m`. */
    ghost method Did(before: State, m: Move)
      requires Reachable(kind, before) && (!lost ==> Inv(before)) && before.driver == kind
      requires Enabled(before, m) && View() == Apply(before, m)
      modifies this`lost
      ensures Valid() && lost == (old(lost) || (m.EarlyReap? && LosesWake(before)))
    {
      MoveReachable(kind, before, m);
      if m.EarlyReap? && LosesWake(before) {
        lost := true;
      }
      if !lost {
        MoveKeepsInv(before, m);
      }
    }

    // ----- the other threads -----

    /** The next move of `thread`. */
    function NextOf(thread: Thread): Move
      requires thread in senders
      reads this
    {
      match senders[thread]
      case Sending(_) => Send(thread)
      case Loading => Load(thread)
      case Writing => Write(thread)
    }

    /** One step of `thread`: send_waker, or the load or the write of EventWaker::wake. */
    method SenderStep(thread: Thread)
      requires Valid() && thread in senders
      modifies this`channel, this`token, this`senders, this`sent, this`lost
      ensures Valid() && lost == old(lost) && Enabled(old(View()), old(NextOf(thread)))
      ensures View() == Apply(old(View()), old(NextOf(thread)))
    {
      ghost var before := View();
      match senders[thread] {
        case Sending(w) =>
          channel, sent := channel + [w], sent + [w];
          senders := senders[thread := Loading];
          Did(before, Send(thread));
        case Loading =>
          senders := if awake then Without(senders, thread) else senders[thread := Writing];
          Did(before, Load(thread));
        case Writing =>
          token := true;
          senders := Without(senders, thread);
          Did(before, Write(thread));
      }
    }

    method Happen(e: Event)
      requires Valid()
      modifies this`channel, this`token, this`senders, this`sent, this`read, this`lost
      ensures Valid() && lost == old(lost) && old(channel) <= channel
    {
      ghost var before := View();
      match e {
        case Arrive(t, w) =>
          if t !in senders {
            senders := senders[t := Sending(w)];
            Did(before, Begin(t, w));
          }
        case Go(t) =>
          if t in senders {
            SenderStep(t);
          }
        case Kernel =>
          if read.InFlight? && token {
            token, read := false, Done;
            Did(before, FinishRead);
          }
      }
    }

    /** Some of what the others have to do. */
    method Others()
      requires Valid()
      modifies this`channel, this`token, this`senders, this`sent, this`read, this`coming, this`lost
      ensures Valid() && lost == old(lost) && old(channel) <= channel
      ensures |coming| < |old(coming)| || (coming == old(coming) && channel == old(channel))
    {
      var n: nat := *;
      while n > 0 && coming != []
        invariant Valid() && lost == old(lost) && old(channel) <= channel
        invariant |coming| < |old(coming)| || (coming == old(coming) && channel == old(channel))
        decreases |coming|
      {
        var e := coming[0];
        coming, n := coming[1..], n - 1;
        Happen(e);
      }
    }

    // ----- the owner -----

    /** One try_recv, and the wake of what it finds. */
    method TryRecv() returns (got: bool)
      requires Valid() && (pc.FirstDrain? || pc.SecondDrain?)
      modifies this`channel, this`woken, this`pc, this`lost
      ensures Valid() && lost == old(lost) && woken + channel == old(woken + channel)
      ensures got ==> |channel| == |old(channel)| - 1 && pc == StopWaiting(old(pc))
      ensures !got ==> old(channel) == [] == channel && pc == AfterDrain(kind, old(pc))
    {
      ghost var before := View();
      got := channel != [];
      if got {
        woken := woken + [channel[0]];
        channel := channel[1..];
        pc := StopWaiting(pc);
      } else {
        pc := AfterDrain(kind, pc);
      }
      Did(before, Receive);
    }

    /** What the others do, and one try_recv. */
    method NextWaker() returns (got: bool)
      requires Valid() && (pc.FirstDrain? || pc.SecondDrain?)
      modifies this`channel, this`woken, this`pc, this`token, this`senders, this`sent, this`read, this`coming, this`lost
      ensures Valid() && lost == old(lost) && old(woken + channel) <= woken + channel
      ensures pc == if got then StopWaiting(old(pc)) else AfterDrain(kind, old(pc))
      ensures !got ==> channel == [] && old(channel) == []
      ensures |coming| < |old(coming)| || (coming == old(coming) && (got ==> |channel| < |old(channel)|))
    {
      Others();
      got := TryRecv();
    }

    /** "Process foreign wakers", up to the first time the channel is found empty. */
    method Drain(needWait: bool, ghost limit: Limit) returns (stillNeedWait: bool)
      requires Valid() && (pc == FirstDrain(needWait, limit) || pc == SecondDrain(needWait, limit))
      modifies this`channel, this`woken, this`pc, this`token, this`senders, this`sent, this`read, this`coming, this`lost
      ensures Valid() && lost == old(lost)
      ensures stillNeedWait ==> needWait && old(channel) == []
      ensures pc == AfterDrain(kind, if stillNeedWait then old(pc) else StopWaiting(old(pc)))
      ensures old(woken + channel) <= woken
    {
      stillNeedWait := needWait;
      var got := NextWaker();
      while got
        invariant Valid() && lost == old(lost)
        invariant got ==> pc == StopWaiting(old(pc))
        invariant !got ==>
                  channel == [] && pc == AfterDrain(kind, if stillNeedWait then old(pc) else StopWaiting(old(pc)))
        invariant stillNeedWait ==> needWait && (!got ==> old(channel) == [])
        invariant old(woken + channel) <= woken + channel
        decreases |coming|, |channel|, got
      {
        stillNeedWait := false;
        got := NextWaker();
      }
    }

    method StoreAwake(value: bool)
      requires Valid() && if value then pc.StoreTrue? else pc.StoreFalse?
      modifies this`awake, this`pc, this`lost
      ensures Valid() && lost == old(lost) && awake == value
      ensures pc == if value then Tick else SecondDrain(true, old(pc).limit)
    {
      ghost var before := View();
      awake := value;
      pc := if value then Tick else SecondDrain(true, pc.limit);
      Did(before, if value then SetAwake else ClearAwake);
    }

    /** flush_space, whose submission loop ticks as long as the ring is busy; false is an error. */
    method FlushSpace() returns (ok: bool)
      requires Valid() && pc.Arm? && (!installed || !pc.limit.Forever?)
      modifies this`installed, this`read, this`pc, this`lost, this`channel, this`token, this`senders, this`sent,
               this`coming
      ensures Valid() && pc == (if ok then old(pc) else Out) && (!old(pc).limit.Timeout? ==> lost == old(lost))
      ensures old(channel) <= channel
    {
      var busy: nat := *;
      while busy > 0
        invariant Valid() && pc == old(pc) && (!installed || !pc.limit.Forever?)
        invariant !old(pc).limit.Timeout? ==> lost == old(lost)
        invariant old(channel) <= channel
      {
        Others();
        ReapEarly();
        busy := busy - 1;
      }
      ok := *;
      if !ok {
        Fail();
      }
    }

    method ReapEarly()
      requires Valid() && pc.Arm? && (!installed || !pc.limit.Forever?)
      modifies this`installed, this`read, this`lost
      ensures Valid() && (!installed || !pc.limit.Forever?) && (!pc.limit.Timeout? ==> lost == old(lost))
    {
      ghost var before := View();
      ReapEventfd();
      if Inv(before) {
        EarlyReapIsSafeUnlessItLosesTheWake(before);
      }
      Did(before, EarlyReap);
    }

    /** The eventfd's part of tick. */
    method ReapEventfd()
      modifies this`installed, this`read
      ensures View() == Reaped(old(View()))
    {
      if read.Done? {
        installed, read := false, NoRead;
      }
    }

    /** The way out with an error. */
    method Fail()
      requires Valid() && (pc.Arm? || pc.Wait?)
      modifies this`pc, this`lost
      ensures Valid() && pc == Out && lost == old(lost)
    {
      ghost var before := View();
      pc := Out;
      Did(before, GiveUp);
    }

    method InstallEventfd()
      requires Valid() && pc.Arm?
      modifies this`installed, this`read, this`pc, this`lost
      ensures Valid() && installed && pc == Wait(!old(pc).limit.Zero?) && lost == old(lost)
    {
      ghost var before := View();
      if !installed {
        installed, read := true, Queued;
      }
      pc := Wait(!pc.limit.Zero?);
      Did(before, Install);
    }

    /** submit_and_wait, submit, or poll: what is queued goes to the kernel, and at some time the call returns. The
        owner goes to sleep here with its channel empty, or its wake pending, or somebody about to wake it. */
    method WaitForEvents() returns (ok: bool)
      requires Valid() && pc.Wait?
      modifies this`read, this`pc, this`lost, this`channel, this`token, this`senders, this`sent, this`coming
      ensures Valid() && lost == old(lost) && old(channel) <= channel
      ensures pc == if ok && kind.Uring? then StoreTrue else Out
      ensures !lost ==> old(SleepIsSafe(View()))
    {
      Others();
      if kind.Uring? && read.Queued? {
        ghost var before := View();
        read := InFlight;
        Did(before, SubmitQueued);
        Others();
      }
      ok := *;
      if ok {
        WaitReturns();
      } else {
        Fail();
      }
    }

    method WaitReturns()
      requires Valid() && pc.Wait?
      modifies this`pc, this`token, this`lost
      ensures Valid() && lost == old(lost) && pc == if kind.Uring? then StoreTrue else Out
    {
      ghost var before := View();
      var consume := *;
      consume := consume && kind.Legacy? && token;
      token := token && !consume;
      pc := if kind.Uring? then StoreTrue else Out;
      Did(before, Return(consume));
    }

    method TickQueue()
      requires Valid() && pc.Tick?
      modifies this`installed, this`read, this`pc, this`lost
      ensures Valid() && pc == Out && lost == old(lost)
    {
      ghost var before := View();
      ReapEventfd();
      pc := Out;
      Did(before, Reap);
    }

    method EnterPark(ghost limit: Limit)
      requires Valid() && pc == Out
      modifies this`pc, this`lost
      ensures Valid() && pc == FirstDrain(true, limit) && lost == old(lost)
    {
      ghost var before := View();
      pc := FirstDrain(true, limit);
      Did(before, Enter(limit));
    }

    /** Makes room in the submission queue and installs the eventfd there. */
    method PrepareWait(limit: Limit) returns (ok: bool)
      requires Valid() && pc == Arm(limit)
      modifies this`installed, this`read, this`pc, this`lost, this`channel, this`token, this`senders, this`sent,
               this`coming
      ensures Valid() && pc == (if ok then Wait(!limit.Zero?) else Out) && (ok ==> installed)
      ensures !limit.Timeout? ==> lost == old(lost)
    {
      if !installed || !limit.Forever? {
        ok := FlushSpace();
        if !ok {
          return;
        }
      }
      InstallEventfd();
      ok := true;
    }

    /** The start of inner_park: drains the channel, and clears `awake` if that was in vain. */
    method DrainAndClear(limit: Limit) returns (needWait: bool)
      requires Valid() && pc == Out
      modifies this`channel, this`woken, this`pc, this`token, this`senders, this`sent, this`read, this`coming
      modifies this`lost, this`awake
      ensures Valid() && lost == old(lost) && pc == SecondDrain(needWait, limit)
      ensures old(woken + channel) <= woken
    {
      EnterPark(limit);
      needWait := Drain(true, limit);
      if needWait {
        Others();
        StoreAwake(false);
      }
    }

    /** Then it drains the channel again. */
    method DeliverWakers(limit: Limit) returns (needWait: bool)
      requires Valid() && pc == Out
      modifies this`channel, this`woken, this`pc, this`token, this`senders, this`sent, this`read, this`coming
      modifies this`lost, this`awake
      ensures Valid() && lost == old(lost)
      ensures pc == if needWait && kind.Uring? then Arm(limit) else Wait(needWait && !limit.Zero?)
      ensures old(woken + channel) <= woken
    {
      needWait := DrainAndClear(limit);
      ghost var first := woken;
      needWait := Drain(needWait, limit);
      assert old(woken + channel) <= first <= woken;
    }

    /** The end of inner_park. */
    method FinishPark()
      requires Valid() && pc.StoreTrue?
      modifies this
      ensures Valid() && pc == Out && lost == old(lost) && awake && woken == old(woken)
    {
      StoreAwake(true);
      Others();
      TickQueue();
    }

    /** inner_park. Whatever is in the channel when it is called has been woken when it returns, in order; and no wake
        of the channel is lost, unless with a timeout an early reap takes it. */
    method InnerPark(limit: Limit) returns (ok: bool)
      requires Valid() && pc == Out
      modifies this
      ensures Valid() && pc == Out
      ensures !limit.Timeout? ==> lost == old(lost)
      ensures old(woken + channel) <= woken
      ensures ok && kind.Uring? ==> awake
    {
      var needWait := DeliverWakers(limit);
      if needWait && kind.Uring? {
        ok := PrepareWait(limit);
        if !ok {
          return;
        }
      }
      ok := WaitForEvents();
      if ok && kind.Uring? {
        FinishPark();
      }
    }
  }
}
