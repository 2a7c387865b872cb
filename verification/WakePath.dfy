/** The whole way of a wake (crates/monoio/src/task/harness.rs:161-267, crates/monoio/src/runtime.rs,
    crates/monoio/src/driver): one task cell of TaskProtocol together with the owner thread and its channel of Parking.

    The two systems share the channel. A waker of this cell is put there by the sending owner's own step, and its
    receipt is a step of both. The owner thread runs the cell's code outside inner_park. Inside, it can wake the task,
    but not run it, in two places: in the wake of a waker it has just received, and in the tick of an early reap, where
    the completion of an operation wakes the task that waits for it. It enters inner_park to sleep only with nothing of
    the cell to do, as the run loop does; the legacy driver's submit enters it for no time, with tasks queued. */
module WakePath {
  import opened Prelude
  import T = TaskProtocol
  import TI = TaskInvariant
  import P = Parking
  import S = TaskState

  datatype World = World(
    cell: T.Cell,
    park: P.State,
    ticking: bool,  // an early reap has begun in this park; its tick may be waking tasks
    hit: bool,      // the tick of an early reap of this park has woken the task, which was not complete
    lost: bool)     // an early reap of this park has taken the only wake of a nonempty channel

  datatype Move =
    | OfCell(m: T.Move)
    | OfPark(p: P.Move)
    | SendWaker(i: T.Id, t: P.Thread)   // thread t sends the waker that is owner i
    | ReceiveWaker(i: T.Id)

  /** The cell's wakers in the channel, which it shares with other cells. */
  function Name(i: T.Id): P.Waker { P.Waker(0, i) }

  // ----- what runs on the owner thread -----

  predicate LocalWork(o: T.Owner) { T.HasDuty(o) || T.Runs(o) || o.WakingLocal? }

  predicate LocalCall(pc: T.CallPc) { pc.Local? || pc.TaskIncrement? }

  /** The owner thread has nothing of this cell to do, and is doing nothing of it. */
  ghost predicate Idle(s: T.Cell) {
    && (forall i :: i in s.owners ==> !LocalWork(s.owners[i]))
    && (forall c :: c in s.calls ==> !LocalCall(s.calls[c].pc))
  }

  /** It is doing nothing of it, but a Task may be queued. */
  ghost predicate AtRest(s: T.Cell) {
    && (forall i :: i in s.owners && LocalWork(s.owners[i]) ==> s.owners[i] == T.Queued)
    && (forall c :: c in s.calls ==> !LocalCall(s.calls[c].pc))
  }

  predicate IsLocal(s: T.Cell, m: T.Move) {
    match m
    case Step(i) => i in s.owners && LocalWork(s.owners[i])
    case StepInc(_, _) => true
    case Pop(_) => true
    case PollEnds(_, _) => true
    case WakeByVal(_, remote) => !remote
    case WakeByRef(_, _, remote) => !remote
    case CallStep(c) => c in s.calls && LocalCall(s.calls[c].pc)
    case CallInc(c, _) => c in s.calls && LocalCall(s.calls[c].pc)
    case _ => false
  }

  /** The start of a wake on the owner thread. */
  predicate StartsWake(m: T.Move) { (m.WakeByVal? || m.WakeByRef?) && !m.remote }

  /** A step of such a wake. */
  predicate IsWake(s: T.Cell, m: T.Move) {
    || StartsWake(m) || m.CallStep? || m.CallInc?
    || (m.Step? && m.i in s.owners && (s.owners[m.i].WakingLocal? || s.owners[m.i].InHand?))
  }

  /** A move that is one of both systems, or of the end of the owner thread. */
  predicate IsShared(s: T.Cell, m: T.Move) {
    m.Receive? || m.CloseChannel? || m.Discard? || (m.Step? && m.i in s.owners && s.owners[m.i] == T.Sending)
  }

  /** The owner sleeps, or is going to unless a waker comes. */
  predicate GoesToSleep(pc: P.OwnerPc) {
    || P.GoingToSleep(pc) || (pc.StoreFalse? && !pc.limit.Zero?)
    || ((pc.FirstDrain? || pc.SecondDrain?) && pc.needWait && !pc.limit.Zero?)
  }

  // ----- the joint system -----

  function Start(d: P.Driver): World { World(T.New(false), P.Start(d), false, false, false) }

  predicate LocalAllowed(w: World, m: T.Move) {
    || w.park.owner.Out?
    || (IsWake(w.cell, m) && (P.RunsTasks(w.park.owner) || (w.park.owner.Arm? && w.ticking)))
  }

  ghost predicate ParkAllowed(w: World, p: P.Move) {
    && (p.Enter? ==> if p.limit.Zero? then AtRest(w.cell) else Idle(w.cell))
    && (p.Send? && p.thread in w.park.senders && w.park.senders[p.thread].Sending? ==>
          w.park.senders[p.thread].waker.cell != 0)
    && (p.Receive? ==> w.park.channel == [] || w.park.channel[0].cell != 0)
    // the wakes of a tick are over when it is
    && (w.park.owner.Arm? && (p.EarlyReap? || p.Install? || p.GiveUp?) ==> AtRest(w.cell))
  }

  ghost predicate Enabled(w: World, m: Move) {
    match m
    case OfCell(c) => T.Enabled(w.cell, c) && !IsShared(w.cell, c) && (IsLocal(w.cell, c) ==> LocalAllowed(w, c))
    case OfPark(p) => P.Enabled(w.park, p) && ParkAllowed(w, p)
    case SendWaker(i, t) =>
      && T.Enabled(w.cell, T.Step(i)) && w.cell.owners[i] == T.Sending
      && P.Enabled(w.park, P.Send(t)) && w.park.senders[t].waker == Name(i)
    case ReceiveWaker(i) =>
      && T.Enabled(w.cell, T.Receive(i))
      && P.Enabled(w.park, P.Receive) && w.park.channel != [] && w.park.channel[0] == Name(i)
  }

  /** An early reap that wakes the task, before its owner blocks. */
  predicate Hits(w: World, c: T.Move) { GoesToSleep(w.park.owner) && StartsWake(c) && !w.cell.word.complete }

  ghost function AfterPark(w: World, p: P.Move): World
    requires P.Enabled(w.park, p)
  {
    World(w.cell, P.Apply(w.park, p),
          p.EarlyReap? || (w.ticking && !p.Enter? && !p.Install? && !p.GiveUp?),
          w.hit && !p.Enter?,
          (w.lost || (p.EarlyReap? && P.LosesWake(w.park))) && !p.Enter?)
  }

  ghost function Apply(w: World, m: Move): World
    requires Enabled(w, m)
  {
    match m
    case OfCell(c) => w.(cell := T.Apply(w.cell, c), hit := w.hit || Hits(w, c))
    case OfPark(p) => AfterPark(w, p)
    case SendWaker(i, t) => w.(cell := T.Apply(w.cell, T.Step(i)), park := P.Apply(w.park, P.Send(t)))
    case ReceiveWaker(i) => w.(cell := T.Apply(w.cell, T.Receive(i)), park := P.Apply(w.park, P.Receive))
  }

  // ----- the invariant -----

  predicate IsInChannel(s: T.Cell, i: T.Id) { i in s.owners && s.owners[i] == T.InChannel }

  /** The cell's wakers in the channel are its owners that are there, each once. */
  ghost predicate ChannelAgrees(s: T.Cell, channel: seq<P.Waker>) {
    && (forall i :: IsInChannel(s, i) ==> Name(i) in channel)
    && (forall k :: 0 <= k < |channel| && channel[k].cell == 0 ==>
          IsInChannel(s, channel[k].owner) && channel[k] !in channel[..k])
  }

  ghost predicate Open(s: T.Cell) { !s.blocking && s.channelOpen && !s.roles.duty.Abandoned? }

  predicate IsWaking(s: T.Cell, i: T.Id) { i in s.owners && s.owners[i].WakingLocal? }

  predicate IsCalling(s: T.Cell, c: nat) { c in s.calls && s.calls[c].pc.Local? }

  ghost predicate BeingWoken(s: T.Cell) { (exists i :: IsWaking(s, i)) || (exists c :: IsCalling(s, c)) }

  /** What of the cell the owner thread can be doing on its way to sleep: waking it, in a tick. Unless that has hit the
      task there is nothing to wake, nor anything to run; and if it has, the task is notified, or about to be. */
  ghost predicate Quiet(s: T.Cell, hit: bool) {
    && (forall i :: i in s.owners ==>
          !T.Runs(s.owners[i]) && !s.owners[i].Starting? && !s.owners[i].Rescheduling?
          && (T.HasDuty(s.owners[i]) ==> hit))
    && (forall c :: c in s.calls ==> (s.calls[c].pc.TaskIncrement? ==> hit))
    && (hit ==> !s.word.complete && (s.word.notified || BeingWoken(s)))
    && (!hit && BeingWoken(s) ==> s.word.complete)
  }

  /** The owner thread is inside inner_park and not in the wake of anybody. */
  predicate Still(w: World) {
    match w.park.owner
    case FirstDrain(needWait, _) => needWait
    case SecondDrain(needWait, _) => needWait
    case StoreFalse(_) => true
    case Arm(_) => !w.ticking
    case Wait(blocking) => blocking
    case _ => false
  }

  ghost predicate Inv(w: World) {
    && T.Inv(w.cell) && Open(w.cell) && P.Sound(w.park)
    && ChannelAgrees(w.cell, w.park.channel)
    && (P.SleepIsSafe(w.park) || w.lost)
    && (w.lost && P.GoingToSleep(w.park.owner) ==> w.park.channel != [])
    && (GoesToSleep(w.park.owner) ==> Quiet(w.cell, w.hit))
    && (Still(w) ==> AtRest(w.cell))
    && (GoesToSleep(w.park.owner) && !P.GoingToSleep(w.park.owner) ==> !w.hit && !w.lost)
  }

  // ----- what a move of the cell leaves alone -----

  predicate Works(s: T.Cell, i: T.Id) { i in s.owners && LocalWork(s.owners[i]) }

  predicate CallsHere(s: T.Cell, c: nat) { c in s.calls && LocalCall(s.calls[c].pc) }

  /** The owner thread's part in the cell is the same. */
  ghost predicate SameWork(s: T.Cell, t: T.Cell) {
    && (forall i :: Works(s, i) || Works(t, i) ==> i in s.owners && i in t.owners && t.owners[i] == s.owners[i])
    && (forall c :: CallsHere(s, c) || CallsHere(t, c) ==> c in s.calls && c in t.calls && t.calls[c] == s.calls[c])
    && t.word.complete == s.word.complete && t.word.notified == s.word.notified
  }

  lemma SameWorkKeeps(s: T.Cell, t: T.Cell, hit: bool)
    requires SameWork(s, t)
    ensures AtRest(s) ==> AtRest(t)
    ensures Quiet(s, hit) ==> Quiet(t, hit)
  {
    if AtRest(s) {
      forall i | i in t.owners && LocalWork(t.owners[i])
        ensures t.owners[i] == T.Queued
      {
        assert Works(t, i);
      }
      forall c | c in t.calls
        ensures !LocalCall(t.calls[c].pc)
      {
        assert CallsHere(t, c) ==> c in s.calls && t.calls[c] == s.calls[c];
      }
    }
    if Quiet(s, hit) {
      SameWorkKeepsQuiet(s, t, hit);
    }
  }

  lemma SameWorkKeepsQuiet(s: T.Cell, t: T.Cell, hit: bool)
    requires SameWork(s, t) && Quiet(s, hit)
    ensures Quiet(t, hit)
  {
    forall i | i in t.owners
      ensures !T.Runs(t.owners[i]) && !t.owners[i].Starting? && !t.owners[i].Rescheduling?
      ensures T.HasDuty(t.owners[i]) ==> hit
    {
      assert Works(t, i) ==> i in s.owners && t.owners[i] == s.owners[i];
    }
    forall c | c in t.calls
      ensures t.calls[c].pc.TaskIncrement? ==> hit
    {
      assert CallsHere(t, c) ==> c in s.calls && t.calls[c] == s.calls[c];
    }
    forall i
      ensures IsWaking(t, i) == IsWaking(s, i)
    {
      assert IsWaking(t, i) ==> Works(t, i);
      assert IsWaking(s, i) ==> Works(s, i);
    }
    forall c
      ensures IsCalling(t, c) == IsCalling(s, c)
    {
      assert IsCalling(t, c) ==> CallsHere(t, c);
      assert IsCalling(s, c) ==> CallsHere(s, c);
    }
  }

  lemma TaskStepIsRemote(s: T.Cell, i: T.Id)
    requires i in s.owners && T.Completes(s.owners[i])
    ensures SameWork(s, T.StepTask(s, i))
  {
  }

  lemma WakerStepIsRemote(s: T.Cell, i: T.Id)
    requires i in s.owners && s.owners[i].WakingRemote? && !s.word.running
    ensures SameWork(s, T.StepWaker(s, i))
  {
  }

  lemma HandleStepIsRemote(s: T.Cell, i: T.Id)
    requires i in s.owners && s.owners[i].Handle? && !s.owners[i].pc.FastDrop?
    ensures SameWork(s, T.StepHandle(s, i))
    ensures forall j :: IsInChannel(T.StepHandle(s, i), j) <==> IsInChannel(s, j)
  {
    TI.HandleEffectIsSmall(s.owners[i].pc, T.Before(s, s.owners[i]));
  }

  lemma ReferenceDropIsRemote(s: T.Cell, i: T.Id)
    requires i in s.owners && s.owners[i].Dropping?
    ensures SameWork(s, T.DropReference(s, i))
    ensures forall j :: IsInChannel(T.DropReference(s, i), j) <==> IsInChannel(s, j)
  {
  }

  lemma FastDropIsRemote(s: T.Cell, i: T.Id)
    requires i in s.owners && s.owners[i] == T.Handle(T.FastDrop)
    ensures SameWork(s, T.FastDropped(s, i))
    ensures forall j :: IsInChannel(T.FastDropped(s, i), j) <==> IsInChannel(s, j)
  {
  }

  lemma DropIsRemote(s: T.Cell, i: T.Id)
    requires i in s.owners && (s.owners[i].Dropping? || s.owners[i] == T.Handle(T.FastDrop))
    ensures SameWork(s, T.StepOwner(s, i))
    ensures forall j :: IsInChannel(T.StepOwner(s, i), j) <==> IsInChannel(s, j)
  {
    if s.owners[i].Dropping? {
      ReferenceDropIsRemote(s, i);
    } else {
      FastDropIsRemote(s, i);
    }
  }

  lemma StepIsRemote(s: T.Cell, i: T.Id)
    requires i in s.owners && T.MovesAlone(s.owners[i]) && !LocalWork(s.owners[i]) && s.owners[i] != T.Sending
    requires !s.word.running
    ensures SameWork(s, T.StepOwner(s, i))
  {
    if s.owners[i].Dropping? || s.owners[i] == T.Handle(T.FastDrop) {
      DropIsRemote(s, i);
    } else if s.owners[i].Handle? {
      HandleStepIsRemote(s, i);
    } else if s.owners[i].WakingRemote? {
      WakerStepIsRemote(s, i);
    } else {
      TaskStepIsRemote(s, i);
    }
  }

  lemma RemoteCallKeepsWork(s: T.Cell, m: T.Move)
    requires T.Enabled(s, m) && !IsLocal(s, m) && !s.word.running && (m.CallStep? || m.CallInc? || m.WakeByRef?)
    ensures SameWork(s, T.Apply(s, m))
  {
  }

  lemma CloneKeepsWork(s: T.Cell, l: T.Id, born: T.Id)
    requires T.Enabled(s, T.Clone(l, born))
    ensures SameWork(s, T.Apply(s, T.Clone(l, born)))
  {
  }

  lemma RelabelKeepsWork(s: T.Cell, i: T.Id, o: T.Owner)
    requires i in s.owners && !LocalWork(s.owners[i]) && !LocalWork(o)
    ensures SameWork(s, T.At(s, i, o))
  {
  }

  lemma RemoteBeginKeepsWork(s: T.Cell, m: T.Move)
    requires T.Enabled(s, m) && !IsLocal(s, m) && !IsShared(s, m)
    requires !m.Step? && !m.CallStep? && !m.CallInc? && !m.WakeByRef?
    ensures SameWork(s, T.Apply(s, m))
  {
    match m
    case Clone(l, born) => CloneKeepsWork(s, l, born);
    case PollJoin(i, w) => RelabelKeepsWork(s, i, T.Handle(T.Loading(w)));
    case DropJoin(i) => RelabelKeepsWork(s, i, T.Handle(T.FastDrop));
    case WakeByVal(i, _) => RelabelKeepsWork(s, i, T.WakingRemote);
    case DropWaker(i) => RelabelKeepsWork(s, i, T.Dropping);
    case DropQueuedWaker(i) => RelabelKeepsWork(s, i, T.Dropping);
    case Free =>
  }

  /** What other threads do gives the owner thread no work, but through its channel. */
  lemma RemoteKeepsWork(s: T.Cell, m: T.Move)
    requires T.Enabled(s, m) && !IsLocal(s, m) && !IsShared(s, m) && !s.word.running
    ensures SameWork(s, T.Apply(s, m))
  {
    if m.Step? {
      StepIsRemote(s, m.i);
    } else if m.CallStep? || m.CallInc? || m.WakeByRef? {
      RemoteCallKeepsWork(s, m);
    } else {
      RemoteBeginKeepsWork(s, m);
    }
  }

  // ----- a wake in the tick of an early reap -----

  /** The wake counts if the task is not complete. */
  predicate NowHit(s: T.Cell, m: T.Move, hit: bool) { hit || (StartsWake(m) && !s.word.complete) }

  lemma WakeByValIsQuiet(s: T.Cell, i: T.Id, hit: bool)
    requires Quiet(s, hit) && T.Enabled(s, T.WakeByVal(i, false))
    ensures Quiet(T.Apply(s, T.WakeByVal(i, false)), NowHit(s, T.WakeByVal(i, false), hit))
  {
    assert IsWaking(T.Apply(s, T.WakeByVal(i, false)), i);
    KeepsBeingWoken(s, T.Apply(s, T.WakeByVal(i, false)));
  }

  lemma WakeByRefIsQuiet(s: T.Cell, l: T.Id, c: nat, hit: bool)
    requires Quiet(s, hit) && T.Enabled(s, T.WakeByRef(l, c, false))
    ensures Quiet(T.Apply(s, T.WakeByRef(l, c, false)), NowHit(s, T.WakeByRef(l, c, false), hit))
  {
    assert IsCalling(T.Apply(s, T.WakeByRef(l, c, false)), c);
    KeepsBeingWoken(s, T.Apply(s, T.WakeByRef(l, c, false)));
  }

  lemma KeepsBeingWoken(s: T.Cell, t: T.Cell)
    requires forall i :: IsWaking(s, i) ==> IsWaking(t, i)
    requires forall c :: IsCalling(s, c) ==> IsCalling(t, c)
    ensures BeingWoken(s) ==> BeingWoken(t)
  {
  }

  lemma WakingStepIsQuiet(s: T.Cell, i: T.Id, hit: bool)
    requires Quiet(s, hit) && IsWaking(s, i) && !s.word.running
    ensures Quiet(T.StepWaker(s, i), hit)
  {
    assert BeingWoken(s);
    var t := T.StepWaker(s, i);
    assert hit ==> t.word.notified;
  }

  lemma ScheduleIsQuiet(s: T.Cell, i: T.Id, hit: bool)
    requires Quiet(s, hit) && i in s.owners && s.owners[i].InHand?
    ensures Quiet(T.StepTask(s, i), hit)
  {
    KeepsBeingWoken(s, T.StepTask(s, i));
  }

  lemma CallStepIsQuiet(s: T.Cell, c: nat, hit: bool)
    requires Quiet(s, hit) && IsCalling(s, c) && !s.word.running
    ensures Quiet(T.StepCall(s, c), hit)
  {
    assert BeingWoken(s);
    var t := T.StepCall(s, c);
    assert hit ==> t.word.notified;
  }

  lemma CallIncIsQuiet(s: T.Cell, c: nat, born: T.Id, hit: bool)
    requires Quiet(s, hit) && c in s.calls && s.calls[c].pc.TaskIncrement? && born !in s.owners
    ensures Quiet(T.IncrementForCall(s, c, born), hit)
  {
    KeepsBeingWoken(s, T.IncrementForCall(s, c, born));
  }

  lemma WakeKeepsQuiet(s: T.Cell, m: T.Move, hit: bool)
    requires Quiet(s, hit) && T.Enabled(s, m) && IsWake(s, m) && IsLocal(s, m) && !s.word.running
    ensures Quiet(T.Apply(s, m), NowHit(s, m, hit))
  {
    match m
    case WakeByVal(i, _) => WakeByValIsQuiet(s, i, hit);
    case WakeByRef(l, c, _) => WakeByRefIsQuiet(s, l, c, hit);
    case CallStep(c) => CallStepIsQuiet(s, c, hit);
    case CallInc(c, born) => CallIncIsQuiet(s, c, born, hit);
    case Step(i) =>
      if s.owners[i].InHand? {
        ScheduleIsQuiet(s, i, hit);
      } else {
        WakingStepIsQuiet(s, i, hit);
      }
  }

  lemma QuietIsNotRunning(s: T.Cell, hit: bool)
    requires T.Inv(s) && Quiet(s, hit)
    ensures !s.word.running
  {
    assert s.roles.runner.None?;
  }

  lemma TaskStepKeepsChannel(s: T.Cell, i: T.Id)
    requires i in s.owners && s.owners[i] != T.Sending && s.owners[i] != T.InChannel
    ensures forall j :: IsInChannel(T.StepTask(s, i), j) <==> IsInChannel(s, j)
    ensures forall j :: IsInChannel(T.StepWaker(s, i), j) <==> IsInChannel(s, j)
  {
  }

  lemma StepKeepsChannel(s: T.Cell, i: T.Id)
    requires i in s.owners && T.MovesAlone(s.owners[i]) && s.owners[i] != T.Sending
    ensures forall j :: IsInChannel(T.StepOwner(s, i), j) <==> IsInChannel(s, j)
  {
    if s.owners[i].Dropping? || s.owners[i] == T.Handle(T.FastDrop) {
      DropIsRemote(s, i);
    } else if s.owners[i].Handle? {
      HandleStepIsRemote(s, i);
    } else {
      TaskStepKeepsChannel(s, i);
    }
  }

  /** Only a send or a receipt changes who is in the channel. */
  lemma OthersKeepChannel(s: T.Cell, m: T.Move)
    requires T.Enabled(s, m) && s.channelOpen && !IsShared(s, m)
    ensures forall j :: IsInChannel(T.Apply(s, m), j) <==> IsInChannel(s, j)
  {
    if m.Step? {
      StepKeepsChannel(s, m.i);
    }
  }

  lemma StepKeepsOpen(s: T.Cell, i: T.Id)
    requires T.Inv(s) && Open(s) && i in s.owners && T.MovesAlone(s.owners[i])
    ensures Open(T.StepOwner(s, i))
  {
  }

  lemma KeepsOpen(s: T.Cell, m: T.Move)
    requires T.Inv(s) && Open(s) && T.Enabled(s, m) && !m.CloseChannel? && !m.Discard?
    ensures Open(T.Apply(s, m))
  {
    if m.Step? {
      StepKeepsOpen(s, m.i);
    }
  }

  // ----- the channel -----

  lemma ChannelFollows(s: T.Cell, t: T.Cell, channel: seq<P.Waker>)
    requires ChannelAgrees(s, channel) && forall j :: IsInChannel(t, j) <==> IsInChannel(s, j)
    ensures ChannelAgrees(t, channel)
  {
  }

  lemma ChannelSent(s: T.Cell, t: T.Cell, channel: seq<P.Waker>, w: P.Waker)
    requires ChannelAgrees(s, channel)
    requires w.cell == 0 ==> !IsInChannel(s, w.owner)
    requires forall j :: IsInChannel(t, j) <==> IsInChannel(s, j) || w == Name(j)
    ensures ChannelAgrees(t, channel + [w])
  {
    var channel' := channel + [w];
    assert w.cell == 0 ==> w !in channel;
    forall k | 0 <= k < |channel'| && channel'[k].cell == 0
      ensures IsInChannel(t, channel'[k].owner) && channel'[k] !in channel'[..k]
    {
      assert channel'[..k] == channel[..k];
      assert k == |channel| ==> w == Name(w.owner);
    }
  }

  lemma ChannelReceived(s: T.Cell, t: T.Cell, channel: seq<P.Waker>)
    requires ChannelAgrees(s, channel) && channel != []
    requires forall j :: IsInChannel(t, j) <==> IsInChannel(s, j) && channel[0] != Name(j)
    ensures ChannelAgrees(t, channel[1..])
  {
    forall i | IsInChannel(t, i)
      ensures Name(i) in channel[1..]
    {
      var k :| 0 <= k < |channel| && channel[k] == Name(i);
      assert channel[1..][k - 1] == Name(i);
    }
    forall k | 0 <= k < |channel[1..]| && channel[1..][k].cell == 0
      ensures IsInChannel(t, channel[1..][k].owner) && channel[1..][k] !in channel[1..][..k]
    {
      assert channel[k + 1] == channel[1..][k] && channel[1..][..k] == channel[..k + 1][1..];
      assert channel[0] in channel[..k + 1] && channel[k + 1] == Name(channel[k + 1].owner);
    }
  }

  // ----- every move keeps the invariant -----

  lemma RestIsNotRunning(s: T.Cell)
    requires T.Inv(s) && AtRest(s)
    ensures !s.word.running
  {
    assert s.roles.runner.None?;
  }

  /** The owner thread's part, when a move of the cell is made. */
  lemma RemoteMoveKeepsOwner(w: World, c: T.Move)
    requires Inv(w) && Enabled(w, OfCell(c)) && !IsLocal(w.cell, c)
    ensures GoesToSleep(w.park.owner) ==> Quiet(T.Apply(w.cell, c), w.hit)
    ensures Still(w) ==> AtRest(T.Apply(w.cell, c))
  {
    if GoesToSleep(w.park.owner) {
      QuietIsNotRunning(w.cell, w.hit);
    } else if Still(w) {
      RestIsNotRunning(w.cell);
    }
    if !w.cell.word.running {
      RemoteKeepsWork(w.cell, c);
      SameWorkKeeps(w.cell, T.Apply(w.cell, c), w.hit);
    }
  }

  lemma LocalMoveKeepsOwner(w: World, c: T.Move)
    requires Inv(w) && Enabled(w, OfCell(c)) && IsLocal(w.cell, c)
    ensures GoesToSleep(w.park.owner) ==> Quiet(T.Apply(w.cell, c), w.hit || Hits(w, c))
    ensures !Still(w)
  {
    if GoesToSleep(w.park.owner) {
      QuietIsNotRunning(w.cell, w.hit);
      WakeKeepsQuiet(w.cell, c, w.hit);
    }
  }

  /** The owner thread's part, when a move of the cell is made. */
  lemma CellMoveKeepsOwner(w: World, c: T.Move)
    requires Inv(w) && Enabled(w, OfCell(c))
    ensures GoesToSleep(w.park.owner) ==> Quiet(T.Apply(w.cell, c), w.hit || Hits(w, c))
    ensures Still(w) ==> AtRest(T.Apply(w.cell, c))
  {
    if IsLocal(w.cell, c) {
      LocalMoveKeepsOwner(w, c);
    } else {
      RemoteMoveKeepsOwner(w, c);
    }
  }

  lemma HitOnlyInTick(w: World, c: T.Move)
    requires Enabled(w, OfCell(c)) && Hits(w, c)
    ensures w.park.owner.Arm? && w.ticking
  {
  }

  lemma CellMoveKeepsInv(w: World, c: T.Move)
    requires Inv(w) && Enabled(w, OfCell(c))
    ensures Inv(Apply(w, OfCell(c)))
  {
    var t := T.Apply(w.cell, c);
    TI.MoveKeepsInv(w.cell, c);
    KeepsOpen(w.cell, c);
    OthersKeepChannel(w.cell, c);
    ChannelFollows(w.cell, t, w.park.channel);
    CellMoveKeepsOwner(w, c);
    if Hits(w, c) {
      HitOnlyInTick(w, c);
    }
  }

  lemma ParkKeepsChannel(w: World, p: P.Move)
    requires ChannelAgrees(w.cell, w.park.channel) && Enabled(w, OfPark(p))
    ensures ChannelAgrees(w.cell, P.Apply(w.park, p).channel)
  {
    if p.Send? {
      ChannelSent(w.cell, w.cell, w.park.channel, w.park.senders[p.thread].waker);
    } else if p.Receive? && w.park.channel != [] {
      ChannelReceived(w.cell, w.cell, w.park.channel);
    }
  }

  /** The owner gets on its way to sleep only by entering inner_park, and on it it receives nothing. */
  lemma OnlyEnterGoesToSleep(s: P.State, p: P.Move)
    requires P.Enabled(s, p) && GoesToSleep(P.Apply(s, p).owner)
    ensures if p.Enter? then !p.limit.Zero? else GoesToSleep(s.owner)
    ensures p.Receive? ==> s.channel == []
    ensures P.GoingToSleep(P.Apply(s, p).owner) && !P.GoingToSleep(s.owner) ==> p.Receive?
    ensures P.GoingToSleep(s.owner) ==> P.GoingToSleep(P.Apply(s, p).owner) && s.channel <= P.Apply(s, p).channel
  {
  }

  lemma IdleIsQuiet(s: T.Cell)
    requires Idle(s)
    ensures Quiet(s, false) && AtRest(s)
  {
  }

  lemma ParkKeepsStill(w: World, p: P.Move)
    requires Enabled(w, OfPark(p)) && Still(Apply(w, OfPark(p))) && (Still(w) ==> AtRest(w.cell))
    ensures AtRest(w.cell)
  {
    if p.Enter? && !p.limit.Zero? {
      IdleIsQuiet(w.cell);
    }
  }

  lemma ParkKeepsSleep(w: World, p: P.Move)
    requires Inv(w) && Enabled(w, OfPark(p))
    ensures var t := Apply(w, OfPark(p));
      && (P.SleepIsSafe(t.park) || t.lost)
      && (t.lost && P.GoingToSleep(t.park.owner) ==> t.park.channel != [])
      && (GoesToSleep(t.park.owner) ==> Quiet(t.cell, t.hit))
      && (GoesToSleep(t.park.owner) && !P.GoingToSleep(t.park.owner) ==> !t.hit && !t.lost)
  {
    P.MoveKeepsSound(w.park, p);
    if GoesToSleep(P.Apply(w.park, p).owner) {
      OnlyEnterGoesToSleep(w.park, p);
      if p.Enter? {
        IdleIsQuiet(w.cell);
      }
    }
  }

  lemma ParkMoveKeepsInv(w: World, p: P.Move)
    requires Inv(w) && Enabled(w, OfPark(p))
    ensures Inv(Apply(w, OfPark(p)))
  {
    P.MoveKeepsSound(w.park, p);
    ParkKeepsChannel(w, p);
    ParkKeepsSleep(w, p);
    if Still(Apply(w, OfPark(p))) {
      ParkKeepsStill(w, p);
    }
  }

  lemma SendStep(s: T.Cell, i: T.Id)
    requires i in s.owners && s.owners[i] == T.Sending && s.channelOpen
    ensures var t := T.StepOwner(s, i);
      SameWork(s, t) && (forall j :: IsInChannel(t, j) <==> IsInChannel(s, j) || j == i)
  {
  }

  lemma SendKeepsPark(s: P.State, t: P.Thread)
    requires P.Sound(s) && P.Enabled(s, P.Send(t))
    ensures var u := P.Apply(s, P.Send(t));
      P.Sound(u) && u.owner == s.owner && u.channel != [] && (P.SleepIsSafe(s) ==> P.SleepIsSafe(u))
  {
    P.MoveKeepsSound(s, P.Send(t));
  }

  lemma SendKeepsInv(w: World, i: T.Id, t: P.Thread)
    requires Inv(w) && Enabled(w, SendWaker(i, t))
    ensures Inv(Apply(w, SendWaker(i, t)))
  {
    TI.MoveKeepsInv(w.cell, T.Step(i));
    KeepsOpen(w.cell, T.Step(i));
    SendStep(w.cell, i);
    SameWorkKeeps(w.cell, T.StepOwner(w.cell, i), w.hit);
    ChannelSent(w.cell, T.StepOwner(w.cell, i), w.park.channel, Name(i));
    SendKeepsPark(w.park, t);
  }

  lemma ReceiveStep(s: T.Cell, i: T.Id)
    requires T.Inv(s) && Open(s) && T.Enabled(s, T.Receive(i))
    ensures var t := T.At(s, i, T.WakingLocal);
      && T.Inv(t) && Open(t) && forall j :: IsInChannel(t, j) <==> IsInChannel(s, j) && j != i
  {
    TI.MoveKeepsInv(s, T.Receive(i));
  }

  /** A waker received keeps the owner awake. */
  lemma ReceiveStaysAwake(s: P.State)
    requires P.Sound(s) && P.Enabled(s, P.Receive) && s.channel != []
    ensures var t := P.Apply(s, P.Receive);
      && P.Sound(t) && P.SleepIsSafe(t) && !GoesToSleep(t.owner)
      && (t.owner.FirstDrain? || t.owner.SecondDrain?) && t.owner.needWait == false && t.channel == s.channel[1..]
  {
  }

  lemma ReceiveKeepsInv(w: World, i: T.Id)
    requires Inv(w) && Enabled(w, ReceiveWaker(i))
    ensures Inv(Apply(w, ReceiveWaker(i)))
  {
    ReceiveStep(w.cell, i);
    ChannelReceived(w.cell, T.At(w.cell, i, T.WakingLocal), w.park.channel);
    ReceiveStaysAwake(w.park);
  }

  lemma MoveKeepsInv(w: World, m: Move)
    requires Inv(w) && Enabled(w, m)
    ensures Inv(Apply(w, m))
  {
    match m
    case OfCell(c) => CellMoveKeepsInv(w, c);
    case OfPark(p) => ParkMoveKeepsInv(w, p);
    case SendWaker(i, t) => SendKeepsInv(w, i, t);
    case ReceiveWaker(i) => ReceiveKeepsInv(w, i);
  }

  // ----- every run -----

  ghost predicate Moves(w: World, m: Move, t: World) { Enabled(w, m) && t == Apply(w, m) }

  ghost predicate MoveAt(states: seq<World>, moves: seq<Move>, k: nat) {
    k < |moves| && k + 1 < |states| && Moves(states[k], moves[k], states[k + 1])
  }

  ghost predicate Run(d: P.Driver, states: seq<World>, moves: seq<Move>) {
    && |states| == |moves| + 1 && states[0] == Start(d)
    && (forall k: nat {:trigger MoveAt(states, moves, k)} :: k < |moves| ==> MoveAt(states, moves, k))
  }

  lemma StartInv(d: P.Driver)
    ensures Inv(Start(d))
  {
    TI.NewInv(false);
  }

  lemma MovesKeepInv(w: World, m: Move, t: World)
    requires Inv(w) && Moves(w, m, t)
    ensures Inv(t)
  {
    MoveKeepsInv(w, m);
  }

  lemma {:induction false} RunReachesInv(d: P.Driver, states: seq<World>, moves: seq<Move>, k: nat, w: World)
    requires Run(d, states, moves) && k < |states| && w == states[k]
    ensures Inv(w)
  {
    if k == 0 {
      StartInv(d);
    } else {
      RunReachesInv(d, states, moves, k - 1, states[k - 1]);
      assert MoveAt(states, moves, k - 1);
      MovesKeepInv(states[k - 1], moves[k - 1], w);
    }
  }

  /** While the owner thread sleeps with a waker of the cell in its channel, its wake is pending or a sender is still in
      unpark, unless an early reap has taken the wake. */
  lemma SentWakerIsHeard(d: P.Driver, states: seq<World>, moves: seq<Move>, k: nat, i: T.Id)
    requires Run(d, states, moves) && k < |states|
    requires states[k].park.owner == P.Wait(true) && IsInChannel(states[k].cell, i) && !states[k].lost
    ensures P.WakePending(states[k].park) || P.SomebodyUnparks(states[k].park)
  {
    RunReachesInv(d, states, moves, k, states[k]);
    assert Name(i) in states[k].park.channel;
  }

  predicate IsQueued(s: T.Cell, i: T.Id) { i in s.owners && s.owners[i] == T.Queued }

  lemma RestWithoutHitIsIdle(s: T.Cell)
    requires Quiet(s, false) && AtRest(s)
    ensures Idle(s)
  {
  }

  lemma HitIsQueued(s: T.Cell)
    requires T.Inv(s) && Open(s) && Quiet(s, true) && AtRest(s)
    ensures exists i :: IsQueued(s, i)
  {
    RestIsNotRunning(s);
    assert !BeingWoken(s) by {
      assert forall i :: !IsWaking(s, i);
      assert forall c :: !IsCalling(s, c);
    }
    assert s.roles.duty.Task?;
    assert IsQueued(s, s.roles.duty.id);
  }

  /** When the owner thread is blocked in its wait with no wake pending and nobody in unpark, it leaves something
      undone, a waker in its channel or the task queued, if and only if an early reap of this park took the only wake
      of a nonempty channel, or woke the task when it was not complete. */
  lemma BlockedWithWorkIff(d: P.Driver, states: seq<World>, moves: seq<Move>, k: nat)
    requires Run(d, states, moves) && k < |states| && states[k].park.owner == P.Wait(true)
    requires !P.WakePending(states[k].park) && !P.SomebodyUnparks(states[k].park)
    ensures var w := states[k];
      w.park.channel != [] || (exists i :: IsQueued(w.cell, i)) <==> w.lost || w.hit
  {
    RunReachesInv(d, states, moves, k, states[k]);
    var w := states[k];
    if w.hit {
      HitIsQueued(w.cell);
    } else {
      RestWithoutHitIsIdle(w.cell);
      assert forall i :: IsQueued(w.cell, i) ==> LocalWork(w.cell.owners[i]);
    }
  }

  /** The task is queued in front of a sleeping owner if and only if an early reap of this park has woken it. */
  lemma QueuedWhileBlockedIff(d: P.Driver, states: seq<World>, moves: seq<Move>, k: nat)
    requires Run(d, states, moves) && k < |states| && states[k].park.owner == P.Wait(true)
    ensures (exists i :: IsQueued(states[k].cell, i)) <==> states[k].hit
  {
    RunReachesInv(d, states, moves, k, states[k]);
    var w := states[k];
    if w.hit {
      HitIsQueued(w.cell);
    } else {
      RestWithoutHitIsIdle(w.cell);
      assert forall i :: IsQueued(w.cell, i) ==> LocalWork(w.cell.owners[i]);
    }
  }

  predicate NeverReaps(w: World) { w.park.driver.Legacy? && !w.ticking && !w.hit && !w.lost }

  lemma LegacyMoveReapsNothing(w: World, m: Move, t: World)
    requires NeverReaps(w) && P.Sound(w.park) && Moves(w, m, t)
    ensures NeverReaps(t)
  {
    if m.OfCell? && Hits(w, m.m) {
      HitOnlyInTick(w, m.m);
    }
  }

  lemma {:induction false} OnlyUringReapsEarly(states: seq<World>, moves: seq<Move>, k: nat, w: World)
    requires Run(P.Legacy, states, moves) && k < |states| && w == states[k]
    ensures NeverReaps(w)
  {
    if k > 0 {
      OnlyUringReapsEarly(states, moves, k - 1, states[k - 1]);
      RunReachesInv(P.Legacy, states, moves, k - 1, states[k - 1]);
      assert MoveAt(states, moves, k - 1);
      LegacyMoveReapsNothing(states[k - 1], moves[k - 1], w);
    }
  }

  lemma IdleIsNotNotified(s: T.Cell)
    requires T.Inv(s) && Open(s) && Idle(s) && !s.word.complete
    ensures !s.word.notified
  {
    assert s.roles.runner.None?;
    assert !s.roles.duty.Task? && !s.roles.duty.ByCall?;
  }

  /** A wake that the owner thread, idle, has not heard of is on its way to it. */
  lemma IdleMeansInTransit(s: T.Cell)
    requires T.Inv(s) && Open(s) && Idle(s) && s.log.wakePending && !s.word.complete
    ensures || (exists i :: i in s.owners && (s.owners[i] == T.Sending || s.owners[i] == T.InChannel))
            || (exists c :: c in s.calls && s.calls[c].pc == T.SendIncrement)
  {
    IdleIsNotNotified(s);
    if i :| i in s.owners && T.InTransit(s.owners[i]) {
      assert !LocalWork(s.owners[i]);
    }
  }

  /** Something will end the sleep, or is about to. */
  ghost predicate Heard(w: World) {
    || P.WakePending(w.park) || P.SomebodyUnparks(w.park)
    || (exists i :: i in w.cell.owners && w.cell.owners[i] == T.Sending)
    || (exists c :: c in w.cell.calls && w.cell.calls[c].pc == T.SendIncrement)
  }

  /** A task that was woken and has not run since is not forgotten by a sleeping owner, unless an early reap of this
      park has woken it or has taken a wake: while the owner thread is blocked in its wait, its wake is pending, or some
      thread is in the middle of waking the task or of unparking the owner. */
  lemma SleeperIsWoken(d: P.Driver, states: seq<World>, moves: seq<Move>, k: nat)
    requires Run(d, states, moves) && k < |states| && !states[k].hit && !states[k].lost
    requires states[k].park.owner == P.Wait(true) && states[k].cell.log.wakePending && !states[k].cell.word.complete
    ensures Heard(states[k])
  {
    RunReachesInv(d, states, moves, k, states[k]);
    RestWithoutHitIsIdle(states[k].cell);
    IdleMeansInTransit(states[k].cell);
    if i :| i in states[k].cell.owners && states[k].cell.owners[i] == T.InChannel {
      assert IsInChannel(states[k].cell, i);
      SentWakerIsHeard(d, states, moves, k, i);
    }
  }

  /** Under the legacy driver it never is. */
  lemma LegacySleeperIsWoken(states: seq<World>, moves: seq<Move>, k: nat)
    requires Run(P.Legacy, states, moves) && k < |states|
    requires states[k].park.owner == P.Wait(true) && states[k].cell.log.wakePending && !states[k].cell.word.complete
    ensures Heard(states[k])
  {
    OnlyUringReapsEarly(states, moves, k, states[k]);
    SleeperIsWoken(P.Legacy, states, moves, k);
  }

  // ----- an early reap that strands a task -----

  ghost predicate Reachable(d: P.Driver, w: World) {
    exists states: seq<World>, moves: seq<Move> :: Run(d, states, moves) && states[|moves|] == w
  }

  lemma StartReachable(d: P.Driver)
    ensures Reachable(d, Start(d))
  {
    assert Run(d, [Start(d)], []);
  }

  lemma MoveReachable(d: P.Driver, w: World, m: Move, t: World)
    requires Reachable(d, w) && Moves(w, m, t)
    ensures Reachable(d, t)
  {
    var states: seq<World>, moves: seq<Move> :| Run(d, states, moves) && states[|moves|] == w;
    var states', moves' := states + [t], moves + [m];
    forall k: nat | k < |moves'|
      ensures MoveAt(states', moves', k)
    {
      assert k < |moves| ==> MoveAt(states, moves, k);
    }
    assert Run(d, states', moves');
  }

  /** The cell with its future not finished, its handle, and no completer. */
  function CellWith(word: S.Snapshot, owners: map<T.Id, T.Owner>, runner: Option<T.Id>, duty: T.Duty,
                    wakePending: bool): T.Cell {
    T.Cell(word, T.Unfinished, None, T.Live, owners[1 := T.Handle(T.Resting(None))], map[], false, true,
           false, false, T.RoleTable(runner, duty, Some(1), None), T.Log(wakePending, None, [], [], 0, 0))
  }

  const POLLED: T.Cell :=
    CellWith(S.Snapshot(true, false, false, true, false, 2), map[0 := T.Polling], Some(0), T.Nobody, false)

  const PENDING: T.Cell :=
    CellWith(S.Snapshot(true, false, false, true, false, 3), map[0 := T.Idling, 2 := T.IdleWaker], Some(0), T.Nobody,
             false)

  /** The task waits; its waker is in the driver's table. */
  const WAITING: T.Cell :=
    CellWith(S.Snapshot(false, false, false, true, false, 2), map[2 := T.IdleWaker], None, T.Nobody, false)

  /** The owner thread has begun to wake it. */
  const HIT: T.Cell :=
    CellWith(S.Snapshot(false, false, false, true, false, 2), map[2 := T.WakingLocal], None, T.Nobody, false)

  const QUEUED: T.Cell :=
    CellWith(S.Snapshot(false, false, true, true, false, 2), map[2 := T.Queued], None, T.Task(2), true)

  /** The owner thread in inner_park, where nobody has sent it anything. */
  function ParkAt(pc: P.OwnerPc, awake: bool): P.State {
    P.State(P.Uring, pc, awake, false, false, P.NoRead, [], [], [], map[])
  }

  /** The owner is blocked without a timeout, in front of a queued task. */
  const STRANDED: World :=
    World(QUEUED, P.State(P.Uring, P.Wait(true), false, false, true, P.Queued, [], [], [], map[]), false, true, false)

  function OutWith(s: T.Cell): World { World(s, P.Start(P.Uring), false, false, false) }

  function Reaping(s: T.Cell, hit: bool): World { World(s, ParkAt(P.Arm(P.Forever), false), true, hit, false) }

  /** Two steps of the cell alone, with nothing of the owner thread's in the way. */
  predicate TwoMoves(s: T.Cell, c1: T.Move, c2: T.Move, t: T.Cell) {
    && !StartsWake(c1) && !StartsWake(c2)
    && T.Enabled(s, c1) && !IsShared(s, c1)
    && var s1 := T.Apply(s, c1);
       T.Enabled(s1, c2) && !IsShared(s1, c2) && T.Apply(s1, c2) == t
  }

  lemma TwoMovesReach(w: World, c1: T.Move, c2: T.Move, t: T.Cell)
    requires Reachable(P.Uring, w) && TwoMoves(w.cell, c1, c2, t)
    requires LocalAllowed(w, c1) && LocalAllowed(w.(cell := T.Apply(w.cell, c1)), c2)
    ensures Reachable(P.Uring, w.(cell := t))
  {
    var w1 := w.(cell := T.Apply(w.cell, c1));
    MoveReachable(P.Uring, w, OfCell(c1), w1);
    MoveReachable(P.Uring, w1, OfCell(c2), w.(cell := t));
  }

  lemma PollMoves()
    ensures TwoMoves(POLLED, T.Clone(0, 2), T.PollEnds(0, None), PENDING)
  {
  }

  lemma IdleMoves()
    ensures TwoMoves(PENDING, T.Step(0), T.Step(0), WAITING)
  {
  }

  lemma WakeMoves()
    ensures TwoMoves(HIT, T.Step(2), T.Step(2), QUEUED)
    ensures T.Apply(HIT, T.Step(2)).owners[2] == T.InHand
  {
  }

  lemma TaskIsPolled()
    ensures Reachable(P.Uring, OutWith(POLLED))
  {
    StartReachable(P.Uring);
    TwoMovesReach(Start(P.Uring), T.Pop(0), T.Step(0), POLLED);
  }

  /** It leaves its waker with an operation that is not complete. */
  lemma PollIsPending()
    ensures Reachable(P.Uring, OutWith(PENDING))
  {
    TaskIsPolled();
    PollMoves();
    TwoMovesReach(OutWith(POLLED), T.Clone(0, 2), T.PollEnds(0, None), PENDING);
  }

  lemma TaskWaits()
    ensures Reachable(P.Uring, OutWith(WAITING))
  {
    PollIsPending();
    IdleMoves();
    TwoMovesReach(OutWith(PENDING), T.Step(0), T.Step(0), WAITING);
  }

  /** The owner thread parks, with nothing to do. */
  lemma OwnerParks()
    ensures Reachable(P.Uring, World(WAITING, ParkAt(P.StoreFalse(P.Forever), true), false, false, false))
  {
    TaskWaits();
    var w := OutWith(WAITING);
    var w1 := w.(park := ParkAt(P.FirstDrain(true, P.Forever), true));
    MoveReachable(P.Uring, w, OfPark(P.Enter(P.Forever)), w1);
    MoveReachable(P.Uring, w1, OfPark(P.Receive), w.(park := ParkAt(P.StoreFalse(P.Forever), true)));
  }

  lemma OwnerReapsEarly()
    ensures Reachable(P.Uring, Reaping(WAITING, false))
  {
    OwnerParks();
    var w := World(WAITING, ParkAt(P.StoreFalse(P.Forever), true), false, false, false);
    var w1 := w.(park := ParkAt(P.SecondDrain(true, P.Forever), false));
    MoveReachable(P.Uring, w, OfPark(P.ClearAwake), w1);
    var w2 := w.(park := ParkAt(P.Arm(P.Forever), false));
    MoveReachable(P.Uring, w1, OfPark(P.Receive), w2);
    MoveReachable(P.Uring, w2, OfPark(P.EarlyReap), Reaping(WAITING, false));
  }

  /** Its tick finds the operation complete. */
  lemma TickBeginsWake()
    ensures Reachable(P.Uring, Reaping(HIT, true))
  {
    OwnerReapsEarly();
    MoveReachable(P.Uring, Reaping(WAITING, false), OfCell(T.WakeByVal(2, false)), Reaping(HIT, true));
  }

  lemma TickWakesTask()
    ensures Reachable(P.Uring, Reaping(QUEUED, true))
  {
    TickBeginsWake();
    WakeMoves();
    assert IsWake(HIT, T.Step(2));
    TwoMovesReach(Reaping(HIT, true), T.Step(2), T.Step(2), QUEUED);
  }

  /** The owner goes on to its wait all the same. */
  lemma EarlyReapStrandsATask()
    ensures Reachable(P.Uring, STRANDED)
    ensures STRANDED.park.owner == P.Wait(true) && STRANDED.cell.log.wakePending && !Heard(STRANDED)
  {
    TickWakesTask();
    MoveReachable(P.Uring, Reaping(QUEUED, true), OfPark(P.Install), STRANDED);
  }
}
