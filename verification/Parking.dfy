/** Sleeping and being woken from other threads (crates/monoio/src/driver/uring/mod.rs and waker.rs,
    crates/monoio/src/driver/legacy/mod.rs and waker.rs), as a transition system.

    The owner thread runs inner_park; any number of other threads send it a waker and then unpark it. Each access to
    the channel, to the `awake` flag, to the eventfd or to the ring is one step, and steps of all threads interleave.
    The eventfd counter, or the mio waker, is one bit, `token`, that stays until it is consumed. */
module Parking {
  import opened Prelude

  /** The waker of the reference `owner` of the task cell `cell`. */
  datatype Waker = Waker(cell: nat, owner: nat)
  type Thread = nat

  datatype Driver = Uring | Legacy

  /** How long the caller of inner_park lets it wait; the legacy driver's submit is a park for no time at all. */
  datatype Limit = Forever | Timeout | Zero

  datatype OwnerPc =
    | Out                                       // not in inner_park
    | FirstDrain(needWait: bool, limit: Limit)
    | StoreFalse(limit: Limit)
    | SecondDrain(needWait: bool, limit: Limit)
    | Arm(limit: Limit)                         // uring: flush_space, install_eventfd
    | Wait(blocking: bool)                      // submit_and_wait or poll; without blocking, submit or a zero timeout
    | StoreTrue                                 // uring
    | Tick                                      // uring

  /** The read of the eventfd: in the submission queue, with the kernel, or its completion waits to be reaped. */
  datatype Read = NoRead | Queued | InFlight | Done

  /** Another thread between send_waker and the end of unpark. */
  datatype SenderPc = Sending(waker: Waker) | Loading | Writing

  datatype State = State(
    driver: Driver,
    owner: OwnerPc,
    awake: bool,
    token: bool,
    installed: bool,
    read: Read,
    channel: seq<Waker>,
    sent: seq<Waker>,
    woken: seq<Waker>,
    senders: map<Thread, SenderPc>)

  function Start(d: Driver): State { State(d, Out, true, false, false, NoRead, [], [], [], map[]) }

  datatype Move =
    // the owner
    | Enter(limit: Limit)
    | Receive                // one try_recv
    | ClearAwake
    | EarlyReap              // submission in flush_space answers EAGAIN or EBUSY, and its loop ticks
    | GiveUp                 // an error returned with `?`
    | Install                // install_eventfd unless installed, then on to the wait
    | SubmitQueued           // the ring hands what is queued to the kernel
    | Return(consume: bool)  // the wait ends, for any reason at all; poll may take the token
    | SetAwake
    | Reap                   // tick, in inner_park, in Driver::submit, or where a full ring is submitted
    // another thread
    | Begin(thread: Thread, waker: Waker)
    | Send(thread: Thread)
    | Load(thread: Thread)
    | Write(thread: Thread)
    // the kernel
    | FinishRead

  /** Code of tasks may run on the owner thread: outside inner_park, or inside the wake of a waker just received. It may
      push to the ring, submit it when it is full, and tick. */
  predicate RunsTasks(pc: OwnerPc) { pc.Out? || ((pc.FirstDrain? || pc.SecondDrain?) && !pc.needWait) }

  predicate Enabled(s: State, m: Move) {
    match m
    case Enter(_) => s.owner.Out?
    case Receive => s.owner.FirstDrain? || s.owner.SecondDrain?
    case ClearAwake => s.owner.StoreFalse?
    case EarlyReap => s.owner.Arm? && (!s.installed || !s.owner.limit.Forever?)  // space != 0
    case GiveUp => s.owner.Arm? || s.owner.Wait?
    case Install => s.owner.Arm?
    case SubmitQueued =>
      s.driver.Uring? && s.read.Queued? && (s.owner.Wait? || s.owner.Arm? || RunsTasks(s.owner))
    case Return(consume) => s.owner.Wait? && (consume ==> s.driver.Legacy? && s.token)
    case SetAwake => s.owner.StoreTrue?
    case Reap => s.owner.Tick? || (s.driver.Uring? && RunsTasks(s.owner))
    case Begin(t, _) => t !in s.senders
    case Send(t) => t in s.senders && s.senders[t].Sending?
    case Load(t) => t in s.senders && s.senders[t].Loading?
    case Write(t) => t in s.senders && s.senders[t].Writing?
    case FinishRead => s.read.InFlight? && s.token
  }

  function AfterDrain(d: Driver, pc: OwnerPc): OwnerPc
    requires pc.FirstDrain? || pc.SecondDrain?
  {
    match pc
    case FirstDrain(needWait, limit) => if needWait then StoreFalse(limit) else SecondDrain(false, limit)
    case SecondDrain(needWait, limit) => if needWait && d.Uring? then Arm(limit) else Wait(needWait && !limit.Zero?)
  }

  function StopWaiting(pc: OwnerPc): OwnerPc {
    match pc
    case FirstDrain(_, limit) => FirstDrain(false, limit)
    case SecondDrain(_, limit) => SecondDrain(false, limit)
    case _ => pc
  }

  /** tick, as far as the eventfd goes. */
  function Reaped(s: State): State {
    if s.read.Done? then s.(read := NoRead, installed := false) else s
  }

  function Apply(s: State, m: Move): State
    requires Enabled(s, m)
  {
    match m
    case Enter(limit) => s.(owner := FirstDrain(true, limit))
    case Receive =>
      if s.channel == [] then s.(owner := AfterDrain(s.driver, s.owner))
      else s.(channel := s.channel[1..], woken := s.woken + [s.channel[0]], owner := StopWaiting(s.owner))
    case ClearAwake => s.(awake := false, owner := SecondDrain(true, s.owner.limit))
    case EarlyReap => Reaped(s)
    case GiveUp => s.(owner := Out)
    case Install =>
      s.(installed := true, read := if s.installed then s.read else Queued, owner := Wait(!s.owner.limit.Zero?))
    case SubmitQueued => s.(read := InFlight)
    case Return(consume) => s.(token := s.token && !consume, owner := if s.driver.Uring? then StoreTrue else Out)
    case SetAwake => s.(awake := true, owner := Tick)
    case Reap => Reaped(s).(owner := if s.owner.Tick? then Out else s.owner)
    case Begin(t, w) => s.(senders := s.senders[t := Sending(w)])
    case Send(t) =>
      var w := s.senders[t].waker;
      s.(channel := s.channel + [w], sent := s.sent + [w], senders := s.senders[t := Loading])
    case Load(t) => s.(senders := if s.awake then Without(s.senders, t) else s.senders[t := Writing])
    case Write(t) => s.(token := true, senders := Without(s.senders, t))
    case FinishRead => s.(token := false, read := Done)
  }

  /** The wait cannot block, or will not for long. */
  predicate WakePending(s: State) { s.token || s.read.Done? }

  predicate Unparking(s: State, t: Thread) { t in s.senders && (s.senders[t].Loading? || s.senders[t].Writing?) }

  ghost predicate SomebodyUnparks(s: State) { exists t :: Unparking(s, t) }

  predicate GoingToSleep(pc: OwnerPc) { (pc.Arm? && !pc.limit.Zero?) || (pc.Wait? && pc.blocking) }

  ghost predicate SleepIsSafe(s: State) {
    GoingToSleep(s.owner) && s.channel != [] ==> WakePending(s) || SomebodyUnparks(s)
  }

  /** What every move keeps. */
  ghost predicate Sound(s: State) {
    && s.sent == s.woken + s.channel
    && (s.installed <==> !s.read.NoRead?)
    && (s.driver.Legacy? ==> s.read.NoRead? && !s.owner.Arm? && !s.owner.StoreTrue? && !s.owner.Tick?)
    && (s.owner.Arm? || GoingToSleep(s.owner) || (s.owner.SecondDrain? && s.owner.needWait) ==> !s.awake)
    && (s.driver.Uring? && s.owner.Wait? && s.owner.blocking ==> s.installed)
  }

  ghost predicate Inv(s: State) { Sound(s) && SleepIsSafe(s) }

  /** Whether an early reap takes away the only thing that would end the sleep of the owner. */
  ghost predicate LosesWake(s: State) {
    GoingToSleep(s.owner) && s.read.Done? && !s.token && s.channel != [] && !SomebodyUnparks(s)
  }

  /** As far as the wakers in the channel go; what the tick wakes on the owner's own thread is in WakePath. Only a park
      with a timeout can lose one of them. */
  lemma EarlyReapIsSafeUnlessItLosesTheWake(s: State)
    requires Inv(s) && Enabled(s, EarlyReap)
    ensures Inv(Apply(s, EarlyReap)) <==> !LosesWake(s)
    ensures LosesWake(s) ==> s.owner.limit.Timeout?
  {
    assert forall t :: Unparking(Apply(s, EarlyReap), t) <==> Unparking(s, t);
  }

  lemma EarlyReapKeepsSound(s: State)
    requires Sound(s) && Enabled(s, EarlyReap)
    ensures Sound(Apply(s, EarlyReap))
    ensures SleepIsSafe(s) && !LosesWake(s) ==> SleepIsSafe(Apply(s, EarlyReap))
  {
    assert forall t :: Unparking(Apply(s, EarlyReap), t) <==> Unparking(s, t);
  }

  predicate SenderMove(m: Move) { m.Begin? || m.Send? || m.Load? || m.Write? }

  /** inner_park up to where it may sleep. */
  predicate DrainMove(m: Move) { m.Enter? || m.Receive? || m.ClearAwake? }

  lemma SendersKeepSleepSafe(s: State, m: Move)
    requires Sound(s) && SleepIsSafe(s) && Enabled(s, m) && SenderMove(m)
    ensures SleepIsSafe(Apply(s, m))
  {
    var s' := Apply(s, m);
    match m {
      case Send(t) => assert Unparking(s', t);
      case Load(t) => assert !s.awake ==> Unparking(s', t);
      case _ =>
    }
    if GoingToSleep(s.owner) && s.channel != [] && !WakePending(s) && !m.Write? {
      var t :| Unparking(s, t);
      assert Unparking(s', t);
    }
  }

  lemma SenderMoveKeepsSound(s: State, m: Move)
    requires Sound(s) && Enabled(s, m) && SenderMove(m)
    ensures Sound(Apply(s, m)) && (SleepIsSafe(s) ==> SleepIsSafe(Apply(s, m)))
  {
    if SleepIsSafe(s) {
      SendersKeepSleepSafe(s, m);
    }
  }

  lemma DrainMoveKeepsSound(s: State, m: Move)
    requires Sound(s) && Enabled(s, m) && DrainMove(m)
    ensures Inv(Apply(s, m))
  {
  }

  lemma RingMoveKeepsSound(s: State, m: Move)
    requires Sound(s) && Enabled(s, m) && !SenderMove(m) && !DrainMove(m) && !m.EarlyReap?
    ensures Sound(Apply(s, m)) && (SleepIsSafe(s) ==> SleepIsSafe(Apply(s, m)))
  {
    assert forall t :: Unparking(Apply(s, m), t) <==> Unparking(s, t);
  }

  /** Nothing but an early reap that takes the only wake makes a safe sleep unsafe. */
  lemma MoveKeepsSound(s: State, m: Move)
    requires Sound(s) && Enabled(s, m)
    ensures Sound(Apply(s, m))
    ensures SleepIsSafe(s) && (m.EarlyReap? ==> !LosesWake(s)) ==> SleepIsSafe(Apply(s, m))
    ensures DrainMove(m) ==> SleepIsSafe(Apply(s, m))
  {
    if m.EarlyReap? {
      EarlyReapKeepsSound(s);
    } else if SenderMove(m) {
      SenderMoveKeepsSound(s, m);
    } else if DrainMove(m) {
      DrainMoveKeepsSound(s, m);
    } else {
      RingMoveKeepsSound(s, m);
    }
  }

  lemma MoveKeepsInv(s: State, m: Move)
    requires Inv(s) && Enabled(s, m) && (m.EarlyReap? ==> !LosesWake(s))
    ensures Inv(Apply(s, m))
  {
    MoveKeepsSound(s, m);
  }

  // ----- every run -----

  predicate Moves(s: State, m: Move, t: State) { Enabled(s, m) && t == Apply(s, m) }

  ghost predicate MoveAt(states: seq<State>, moves: seq<Move>, k: nat) {
    k < |moves| && k + 1 < |states| && Moves(states[k], moves[k], states[k + 1])
  }

  ghost predicate Run(d: Driver, states: seq<State>, moves: seq<Move>) {
    && |states| == |moves| + 1 && states[0] == Start(d)
    && (forall k: nat {:trigger MoveAt(states, moves, k)} :: k < |moves| ==> MoveAt(states, moves, k))
  }

  lemma ExtendRun(d: Driver, states: seq<State>, moves: seq<Move>, m: Move)
    requires Run(d, states, moves) && Enabled(states[|moves|], m)
    ensures Run(d, states + [Apply(states[|moves|], m)], moves + [m])
  {
    var states', moves' := states + [Apply(states[|moves|], m)], moves + [m];
    forall k: nat | k < |moves'|
      ensures MoveAt(states', moves', k)
    {
      assert k < |moves| ==> MoveAt(states, moves, k);
    }
  }

  /** No early reap in the run takes the completion that ends the sleep. */
  ghost predicate NoWakeReapedEarly(states: seq<State>, moves: seq<Move>)
    requires |states| == |moves| + 1
  {
    forall k {:trigger moves[k]} :: 0 <= k < |moves| && moves[k].EarlyReap? ==> !LosesWake(states[k])
  }

  lemma {:induction false} RunReachesInv(d: Driver, states: seq<State>, moves: seq<Move>, k: nat, s: State)
    requires Run(d, states, moves) && NoWakeReapedEarly(states, moves) && k < |states| && s == states[k]
    ensures Inv(s) && s.driver == d
  {
    if k > 0 {
      RunReachesInv(d, states, moves, k - 1, states[k - 1]);
      assert MoveAt(states, moves, k - 1);
      assert moves[k - 1].EarlyReap? ==> !LosesWake(states[k - 1]);
      MoveKeepsInv(states[k - 1], moves[k - 1]);
    }
  }

  lemma RunKeepsInv(d: Driver, states: seq<State>, moves: seq<Move>, k: nat)
    requires Run(d, states, moves) && NoWakeReapedEarly(states, moves) && k < |states|
    ensures Inv(states[k]) && states[k].driver == d
  {
    RunReachesInv(d, states, moves, k, states[k]);
  }

  /** The owner is never blocked with a waker in its channel, unless a wake is pending or a thread is still in unpark,
      which will then write; under uring the eventfd's read is there to see it. */
  lemma NoLostUnpark(d: Driver, states: seq<State>, moves: seq<Move>, k: nat)
    requires Run(d, states, moves) && NoWakeReapedEarly(states, moves) && k < |states|
    requires states[k].owner == Wait(true) && states[k].channel != []
    ensures var s := states[k];
      && (WakePending(s) || SomebodyUnparks(s))
      && (forall t :: Unparking(s, t) && s.senders[t].Loading? ==> Apply(s, Load(t)).senders == s.senders[t := Writing])
      && (d.Uring? ==> s.installed && !s.read.NoRead?)
  {
    RunKeepsInv(d, states, moves, k);
  }

  /** Wakers are woken in the order they were sent, each once, and none is lost. */
  lemma {:induction false} WakersDelivered(d: Driver, states: seq<State>, moves: seq<Move>, k: nat)
    requires Run(d, states, moves) && k < |states|
    ensures states[k].sent == states[k].woken + states[k].channel
  {
    if k > 0 {
      WakersDelivered(d, states, moves, k - 1);
      assert MoveAt(states, moves, k - 1);
    }
  }

  /** The legacy driver never reaps early, so its sleep is safe in every run. */
  lemma {:induction false} LegacyHasNoEarlyReap(states: seq<State>, moves: seq<Move>, k: nat)
    requires Run(Legacy, states, moves) && k < |states|
    ensures Inv(states[k]) && states[k].driver == Legacy
    ensures k < |moves| ==> !moves[k].EarlyReap?
  {
    if k > 0 {
      LegacyHasNoEarlyReap(states, moves, k - 1);
      assert MoveAt(states, moves, k - 1);
      MoveKeepsInv(states[k - 1], moves[k - 1]);
    }
    assert k < |moves| ==> MoveAt(states, moves, k);
  }

  // ----- the awake flag -----

  /** The legacy driver is taken to be awake exactly until it goes to sleep for the first time: the flag is cleared
      then, and never set again. */
  lemma {:induction false} LegacyIsAwakeOnce(states: seq<State>, moves: seq<Move>, k: nat)
    requires Run(Legacy, states, moves) && k < |states|
    ensures states[k].awake <==> forall j: nat :: j < k ==> !moves[j].ClearAwake?
  {
    if k > 0 {
      LegacyIsAwakeOnce(states, moves, k - 1);
      LegacyHasNoEarlyReap(states, moves, k - 1);
      assert MoveAt(states, moves, k - 1);
    }
  }

  /** The `g`-th move left inner_park with an error while the flag was clear, and it has not been set since. */
  ghost predicate LeftAsleep(states: seq<State>, moves: seq<Move>, g: nat, k: nat) {
    && g < k <= |moves| && g < |states| && moves[g].GiveUp? && !states[g].awake
    && forall l: nat :: g < l < k ==> !moves[l].SetAwake?
  }

  lemma {:induction false} StaysAsleep(d: Driver, states: seq<State>, moves: seq<Move>, g: nat, k: nat)
    requires Run(d, states, moves) && LeftAsleep(states, moves, g, k)
    ensures !states[k].awake
  {
    if g + 1 < k {
      StaysAsleep(d, states, moves, g, k - 1);
    }
    assert MoveAt(states, moves, k - 1);
  }

  lemma {:induction false} OutAsleepLeftByError(states: seq<State>, moves: seq<Move>, k: nat)
    requires Run(Uring, states, moves) && k < |states|
    ensures states[k].driver == Uring && (states[k].owner.Tick? ==> states[k].awake)
    ensures states[k].owner.Out? && !states[k].awake ==> exists g: nat :: LeftAsleep(states, moves, g, k)
  {
    if k > 0 {
      OutAsleepLeftByError(states, moves, k - 1);
      assert MoveAt(states, moves, k - 1);
      if states[k].owner.Out? && !states[k].awake {
        if moves[k - 1].GiveUp? {
          assert LeftAsleep(states, moves, k - 1, k);
        } else {
          var g: nat :| LeftAsleep(states, moves, g, k - 1);
          assert LeftAsleep(states, moves, g, k);
        }
      }
    }
  }

  /** Out of inner_park, the uring owner is taken to sleep if and only if an error took it out after it had cleared the
      flag, and it has not come out in order since. */
  lemma UringIsAsleepOutsideIff(states: seq<State>, moves: seq<Move>, k: nat)
    requires Run(Uring, states, moves) && k < |states| && states[k].owner.Out?
    ensures !states[k].awake <==> exists g: nat :: LeftAsleep(states, moves, g, k)
  {
    OutAsleepLeftByError(states, moves, k);
    if g: nat :| LeftAsleep(states, moves, g, k) {
      StaysAsleep(Uring, states, moves, g, k);
    }
  }

  // ----- what an early reap can do -----

  ghost predicate Reachable(d: Driver, s: State) {
    exists states: seq<State>, moves: seq<Move> :: Run(d, states, moves) && states[|moves|] == s
  }

  lemma StartReachable(d: Driver)
    ensures Reachable(d, Start(d))
  {
    assert Run(d, [Start(d)], []);
  }

  lemma MoveReachable(d: Driver, s: State, m: Move)
    requires Reachable(d, s) && Enabled(s, m)
    ensures Reachable(d, Apply(s, m))
  {
    var states: seq<State>, moves: seq<Move> :| Run(d, states, moves) && states[|moves|] == s;
    ExtendRun(d, states, moves, m);
    var states', moves' := states + [Apply(s, m)], moves + [m];
    assert Run(d, states', moves');
  }

  const W: Waker := Waker(0, 7)

  /** The owner is blocked, a waker is in its channel, and nothing is going to end its sleep. */
  const STUCK: State := State(Uring, Wait(true), false, false, true, Queued, [W], [W], [], map[])

  /** The owner parks a second time, with a timeout and the eventfd already installed; a waker comes in after the second
      drain, and the completion that should end the sleep is reaped while making room in the submission queue. */
  lemma EarlyReapLosesAWake()
    ensures Reachable(Uring, STUCK) && !SleepIsSafe(STUCK)
  {
    StartReachable(Uring);
    var s := Start(Uring);
    MoveReachable(Uring, s, Enter(Forever));
    s := Apply(s, Enter(Forever));
    MoveReachable(Uring, s, Receive);
    s := Apply(s, Receive);
    MoveReachable(Uring, s, ClearAwake);
    s := Apply(s, ClearAwake);
    MoveReachable(Uring, s, Receive);
    s := Apply(s, Receive);
    MoveReachable(Uring, s, Install);
    s := Apply(s, Install);
    MoveReachable(Uring, s, SubmitQueued);
    s := Apply(s, SubmitQueued);
    MoveReachable(Uring, s, Return(false));
    s := Apply(s, Return(false));
    MoveReachable(Uring, s, SetAwake);
    s := Apply(s, SetAwake);
    MoveReachable(Uring, s, Reap);
    s := Apply(s, Reap);
    ArmAgain(s);
    LoseAWake(State(Uring, Arm(Timeout), false, false, true, InFlight, [], [], [], map[]));
  }

  lemma ArmAgain(start: State)
    requires start == State(Uring, Out, true, false, true, InFlight, [], [], [], map[])
    requires Reachable(Uring, start)
    ensures Reachable(Uring, State(Uring, Arm(Timeout), false, false, true, InFlight, [], [], [], map[]))
  {
    var s := start;
    MoveReachable(Uring, s, Enter(Timeout));
    s := Apply(s, Enter(Timeout));
    MoveReachable(Uring, s, Receive);
    s := Apply(s, Receive);
    MoveReachable(Uring, s, ClearAwake);
    s := Apply(s, ClearAwake);
    MoveReachable(Uring, s, Receive);
    s := Apply(s, Receive);
  }

  lemma LoseAWake(start: State)
    requires start == State(Uring, Arm(Timeout), false, false, true, InFlight, [], [], [], map[])
    requires Reachable(Uring, start)
    ensures Reachable(Uring, STUCK)
  {
    var s := start;
    MoveReachable(Uring, s, Begin(1, W));
    s := Apply(s, Begin(1, W));
    MoveReachable(Uring, s, Send(1));
    s := Apply(s, Send(1));
    MoveReachable(Uring, s, Load(1));
    s := Apply(s, Load(1));
    MoveReachable(Uring, s, Write(1));
    ReapWake(State(Uring, Arm(Timeout), false, true, true, InFlight, [W], [W], [], map[]));
  }

  lemma ReapWake(start: State)
    requires start == State(Uring, Arm(Timeout), false, true, true, InFlight, [W], [W], [], map[])
    requires Reachable(Uring, start)
    ensures Reachable(Uring, STUCK)
  {
    var s := start;
    MoveReachable(Uring, s, FinishRead);
    s := Apply(s, FinishRead);
    MoveReachable(Uring, s, EarlyReap);
    s := Apply(s, EarlyReap);
    MoveReachable(Uring, s, Install);
    s := Apply(s, Install);
  }
}
