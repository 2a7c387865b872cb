/** The task cell as a transition system (crates/monoio/src/task).

    A cell is shared by everybody who holds one of its references: a Task (in a run queue, in somebody's hands or being
    run), the JoinHandle, and wakers (in user code or in a cross-thread channel). Each owner has a program counter; one
    move is one access to shared memory: a compare-and-swap, a fetch operation, a load, or the access to a non-atomic
    field. Any owner may move at any time, so a run of the system is an arbitrary interleaving of threads. A move looks
    only at what the code looks at: its own program counter and the shared memory it reads. Wherever the code asserts,
    unwraps, or calls something unreachable, and wherever it would touch a freed cell, the move sets `fault`. */
module TaskProtocol {
  import opened Prelude
  import opened TaskState

  type Id = nat        // names an owner of one reference
  type WakerId = nat   // names the waker of whoever polls the JoinHandle

  datatype Output = Value(v: int) | Canceled

  datatype Stage = Unfinished | Finished(out: Output) | Consumed

  datatype JoinPc =
    | Resting(waiting: Option<WakerId>)  // no call in progress; the waker of the last poll if that was Pending
    | Loading(w: WakerId)                // can_read_output: before the load
    | Comparing(w: WakerId)              // will_wake: reads the waker slot
    | Unsetting(w: WakerId)              // before unset_waker
    | Writing(w: WakerId)                // writes the waker slot
    | Setting(w: WakerId)                // before set_join_waker
    | Clearing                           // set_join_waker failed: writes None to the waker slot
    | Taking                             // take_output
    | Joined                             // the last poll returned Ready
    | FastDrop                           // before drop_join_handle_fast
    | SlowDrop                           // before unset_join_interested
    | DroppingOutput                     // drop_future_or_output

  datatype Owner =
    // a Task
    | Queued                  // in the run queue, or a BlockingTask in the hands of the thread pool
    | InHand                  // made by get_new_task, not yet passed to schedule
    | Starting(cancel: bool)  // run (or, to cancel, finish): before transition_to_running
    | Polling                 // the future is being polled
    | Storing(out: Output)    // before store_output
    | Idling                  // the poll was Pending: before transition_to_idle
    | Completing              // before transition_to_complete
    | Rescheduling            // OkNotified: before ref_inc
    | Disposing               // completed without join interest: before drop_future_or_output
    | WakingJoin              // completed with a join waker: before it reads the slot
    // the JoinHandle
    | Handle(pc: JoinPc)
    // a waker
    | IdleWaker
    | WakingRemote            // wake_by_val off the owner thread: before transition_to_notified_without_submit
    | WakingLocal             // wake_by_val on the owner thread: before transition_to_notified
    | Sending                 // before send_waker
    | InChannel
    // any of them
    | Dropping                // before ref_dec

  /** A call of wake_by_ref in progress. The waker it was called on stays borrowed from `lender`. */
  datatype Call = Call(lender: Id, pc: CallPc)
  datatype CallPc = Remote | Local | SendIncrement | TaskIncrement

  datatype Life = Live | Freeing | Freed

  datatype DisposedHow = TakenByHandle | DroppedByHandle | DroppedByCompleter

  datatype Disposal = Disposal(how: DisposedHow, out: Output)

  /** Who holds the duty to run the task next. */
  datatype Duty = Nobody | Task(id: Id) | ByCall(call: nat) | Abandoned

  datatype Cell = Cell(
    // memory
    word: Snapshot,
    stage: Stage,
    slot: Option<WakerId>,
    life: Life,
    // everybody else
    owners: map<Id, Owner>,
    calls: map<nat, Call>,
    blocking: bool,           // made by spawn_blocking, for the default thread
    channelOpen: bool,        // the owner thread has a waker channel
    // what happened so far
    fault: bool,
    aborted: bool,            // the reference count overflowed and the process is gone
    roles: RoleTable,
    log: Log)

  /** Which owner is in which part of the code; kept beside the owners for the proofs. */
  datatype RoleTable = RoleTable(runner: Option<Id>, duty: Duty, handle: Option<Id>, completer: Option<Id>)

  datatype Log = Log(
    wakePending: bool,        // the task was woken and no run has started since
    woken: Option<WakerId>,   // the join waker that the completing step woke
    outputs: seq<Output>,     // stored outputs
    disposals: seq<Disposal>, // what became of them
    completions: nat,
    frees: nat)

  /** new_task_holding: a Task and a JoinHandle. */
  function New(blocking: bool): Cell {
    Cell(INITIAL_SNAPSHOT, Unfinished, None, Live,
         map[0 := Queued, 1 := Handle(Resting(None))], map[], blocking, true,
         false, false, RoleTable(None, Task(0), Some(1), None), Log(false, None, [], [], 0, 0))
  }

  datatype Move =
    | Step(i: Id)                           // owner i makes its next access; if that is a ref_inc, see StepInc
    | StepInc(i: Id, born: Id)             // ref_inc by owner i on behalf of a new owner
    | Pop(i: Id)                            // the queue hands a Task to run; or BlockingTask::run
    | Discard(i: Id)                        // TaskQueue::drop; or BlockingTask::drop
    | PollEnds(i: Id, ready: Option<Output>)
    | PollJoin(i: Id, w: WakerId)
    | DropJoin(i: Id)
    | Clone(lender: Id, born: Id)
    | WakeByVal(i: Id, remote: bool)
    | WakeByRef(lender: Id, call: nat, remote: bool)
    | DropWaker(i: Id)
    | CallStep(call: nat)
    | CallInc(call: nat, born: Id)
    | Receive(i: Id)                        // the owner thread takes a waker from its channel and wakes it
    | CloseChannel
    | DropQueuedWaker(i: Id)                // a channel is dropped with this waker in it
    | Free                                  // dealloc, by the step that took the count to zero

  predicate Borrowed(s: Cell, i: Id) {
    exists c :: c in s.calls && s.calls[c].lender == i
  }

  /** User code can get at the cell's waker through this owner. */
  predicate CanLend(s: Cell, i: Id) {
    i in s.owners && (s.owners[i] == IdleWaker || (s.owners[i] == Polling && !s.blocking))
  }

  predicate Enabled(s: Cell, m: Move) {
    !s.aborted &&
    match m
    case Step(i) => i in s.owners && MovesAlone(s.owners[i])
    case StepInc(i, born) => i in s.owners && s.owners[i] == Rescheduling && born !in s.owners
    case Pop(i) => i in s.owners && s.owners[i] == Queued
    case Discard(i) => i in s.owners && s.owners[i] == Queued
    case PollEnds(i, ready) =>
      // BlockingFuture::poll is Ready at once and ignores its waker; only BlockingTask::drop makes Canceled
      && i in s.owners && s.owners[i] == Polling && !Borrowed(s, i)
      && (s.blocking ==> ready.Some?) && (ready.Some? ==> ready.value.Value?)
    case PollJoin(i, w) => i in s.owners && s.owners[i].Handle? && s.owners[i].pc.Resting?
    case DropJoin(i) => i in s.owners && s.owners[i].Handle? && (s.owners[i].pc.Resting? || s.owners[i].pc.Joined?)
    case Clone(l, born) => CanLend(s, l) && born !in s.owners
    case WakeByVal(i, remote) => i in s.owners && s.owners[i] == IdleWaker && !Borrowed(s, i) && (s.blocking ==> remote)
    case WakeByRef(l, c, remote) => CanLend(s, l) && c !in s.calls && (s.blocking ==> remote)
    case DropWaker(i) => i in s.owners && s.owners[i] == IdleWaker && !Borrowed(s, i)
    case CallStep(c) => c in s.calls && (s.calls[c].pc.Remote? || s.calls[c].pc.Local?)
    case CallInc(c, born) =>
      c in s.calls && (s.calls[c].pc.SendIncrement? || s.calls[c].pc.TaskIncrement?) && born !in s.owners
    case Receive(i) => i in s.owners && s.owners[i] == InChannel && s.channelOpen
    case CloseChannel => true
    case DropQueuedWaker(i) => i in s.owners && s.owners[i] == InChannel && !s.channelOpen
    case Free => s.life == Freeing
  }

  predicate MovesAlone(o: Owner) {
    match o
    case Queued | Polling | Rescheduling | IdleWaker | InChannel => false
    case Handle(pc) => !pc.Resting? && !pc.Joined?
    case _ => true
  }

  // ----- one move -----

  /** Flags a fault unless `ok`, and whenever the cell is no longer there. */
  function Check(s: Cell, ok: bool): bool {
    s.fault || !ok || s.life != Live
  }

  function At(s: Cell, i: Id, o: Owner): Cell { s.(owners := s.owners[i := o]) }

  function AtPc(s: Cell, i: Id, pc: JoinPc): Cell { At(s, i, Handle(pc)) }

  /** ref_inc in `s`, after which the process is gone or the new owner is there beside what `t` says. */
  function AddOwner(s: Cell, t: Cell, born: Id, o: Owner): Cell {
    if RefIncAborts(s.word) then s.(fault := Check(s, true), aborted := true)
    else t.(fault := Check(s, true), word := RefInc(s.word), owners := t.owners[born := o])
  }

  /** ref_dec: who takes the count to zero must deallocate. */
  function DropReference(s: Cell, i: Id): Cell {
    if s.word.refs == 0 then s.(fault := true)
    else s.(fault := Check(s, true), word := RefDec(s.word), owners := s.owners - {i},
            life := if RefDec(s.word).refs == 0 then Freeing else s.life)
  }

  function Woken(s: Cell): Log { s.log.(wakePending := s.log.wakePending || !s.word.complete) }

  /** What one step does to the memory of the cell, and where its owner goes next. */
  datatype Effect = Effect(
    ok: bool,                 // what the code asserts or takes for granted holds
    next: Owner,
    word: Snapshot,
    stage: Stage,
    slot: Option<WakerId>,
    roles: RoleTable,
    log: Log)

  function Before(s: Cell, o: Owner): Effect { Effect(true, o, s.word, s.stage, s.slot, s.roles, s.log) }

  function Put(s: Cell, i: Id, e: Effect): Cell {
    s.(owners := s.owners[i := e.next], fault := Check(s, e.ok), word := e.word, stage := e.stage, slot := e.slot,
       roles := e.roles, log := e.log)
  }

  /** set_stage(Consumed): whatever was in the stage is dropped, or taken. */
  function Disposed(e: Effect, how: DisposedHow): Log {
    if e.stage.Finished? then e.log.(disposals := e.log.disposals + [Disposal(how, e.stage.out)]) else e.log
  }

  function WokenAgain(e: Effect): Log { e.log.(wakePending := e.log.wakePending || !e.word.complete) }

  /** The steps of a Task, but for the giving back of its reference. */
  function TaskEffect(i: Id, o: Owner, blocking: bool, e: Effect): Effect {
    match o
    case InHand =>
      // Schedule::schedule; for a blocking task that is NoopScheduler
      e.(ok := !blocking, next := Queued)
    case Starting(cancel) =>
      e.(ok := e.word.notified && e.word.IsIdle(), next := if cancel then Storing(Canceled) else Polling,
         word := ToRunning(e.word), roles := e.roles.(runner := Some(i), duty := Nobody),
         log := e.log.(wakePending := false))
    case Storing(out) =>
      e.(ok := !e.stage.Finished?, next := Completing, stage := Finished(out),
         log := e.log.(outputs := e.log.outputs + [out]))
    case Idling =>
      e.(ok := e.word.running, next := if e.word.notified then Rescheduling else Dropping, word := ToIdle(e.word),
         roles := e.roles.(runner := None, duty := if e.word.notified then Task(i) else e.roles.duty))
    case Completing =>
      e.(ok := e.word.running && !e.word.complete,
         next := if !e.word.joinInterest then Disposing else if e.word.joinWaker then WakingJoin else Dropping,
         word := ToComplete(e.word),
         roles := e.roles.(runner := None,
                           completer := if !e.word.joinInterest || e.word.joinWaker then Some(i)
                                        else e.roles.completer),
         log := e.log.(completions := e.log.completions + 1))
    case Disposing =>
      e.(next := Dropping, stage := Consumed, roles := e.roles.(completer := None),
         log := Disposed(e, DroppedByCompleter))
    case WakingJoin =>
      e.(ok := e.slot.Some?, next := Dropping, roles := e.roles.(completer := None), log := e.log.(woken := e.slot))
    case _ => e
  }

  function WakerEffect(i: Id, o: Owner, channelOpen: bool, e: Effect): Effect {
    match o
    case WakingRemote =>
      e.(next := if ToNotifiedWithoutSubmit(e.word).1 then Dropping else Sending,
         word := ToNotifiedWithoutSubmit(e.word).0, log := WokenAgain(e))
    case WakingLocal =>
      e.(next := if ToNotified(e.word).1 then InHand else Dropping,
         word := ToNotified(e.word).0, log := WokenAgain(e),
         roles := e.roles.(duty := if ToNotified(e.word).1 then Task(i) else e.roles.duty))
    case Sending => e.(next := if channelOpen then InChannel else Dropping)
    case _ => e
  }

  /** The steps of the JoinHandle, but for drop_join_handle_fast. */
  function HandleEffect(pc: JoinPc, e: Effect): Effect {
    match pc
    case Loading(w) =>
      e.(ok := e.word.joinInterest,
         next := Handle(if e.word.complete then Taking else if e.word.joinWaker then Comparing(w) else Writing(w)))
    case Comparing(w) =>
      e.(ok := e.slot.Some?, next := Handle(if e.slot == Some(w) then Resting(Some(w)) else Unsetting(w)))
    case Unsetting(w) =>
      e.(ok := e.word.joinInterest && e.word.joinWaker, next := Handle(if e.word.complete then Taking else Writing(w)),
         word := e.word.(joinWaker := e.word.joinWaker && e.word.complete))
    case Writing(w) => e.(next := Handle(Setting(w)), slot := Some(w))
    case Setting(w) =>
      e.(ok := e.word.joinInterest && !e.word.joinWaker,
         next := Handle(if e.word.complete then Clearing else Resting(Some(w))),
         word := e.word.(joinWaker := e.word.joinWaker || !e.word.complete))
    case Clearing => e.(ok := e.word.complete, next := Handle(Taking), slot := None)
    case Taking =>
      e.(ok := e.stage.Finished?, next := Handle(Joined), stage := Consumed, log := Disposed(e, TakenByHandle))
    case SlowDrop =>
      e.(ok := e.word.joinInterest, next := if e.word.complete then Handle(DroppingOutput) else Dropping,
         word := e.word.(joinInterest := e.word.joinInterest && e.word.complete),
         roles := e.roles.(handle := if e.word.complete then e.roles.handle else None))
    case DroppingOutput =>
      e.(next := Dropping, stage := Consumed, roles := e.roles.(handle := None), log := Disposed(e, DroppedByHandle))
    case _ => e
  }

  /** drop_join_handle_fast: nothing has happened yet but the spawn. */
  function FastDropped(s: Cell, i: Id): Cell {
    if s.word == INITIAL_SNAPSHOT
    then s.(fault := Check(s, true), word := s.word.(joinInterest := false, refs := 1), owners := s.owners - {i},
            roles := s.roles.(handle := None))
    else At(s, i, Handle(SlowDrop)).(fault := Check(s, true))
  }

  function StepTask(s: Cell, i: Id): Cell
    requires i in s.owners
  {
    Put(s, i, TaskEffect(i, s.owners[i], s.blocking, Before(s, s.owners[i])))
  }

  function StepWaker(s: Cell, i: Id): Cell
    requires i in s.owners
  {
    Put(s, i, WakerEffect(i, s.owners[i], s.channelOpen, Before(s, s.owners[i])))
  }

  function StepHandle(s: Cell, i: Id): Cell
    requires i in s.owners && s.owners[i].Handle?
  {
    Put(s, i, HandleEffect(s.owners[i].pc, Before(s, s.owners[i])))
  }

  function StepOwner(s: Cell, i: Id): Cell
    requires i in s.owners && MovesAlone(s.owners[i])
  {
    match s.owners[i]
    case Dropping => DropReference(s, i)
    case Handle(FastDrop) => FastDropped(s, i)
    case Handle(_) => StepHandle(s, i)
    case WakingRemote | WakingLocal | Sending => StepWaker(s, i)
    case _ => StepTask(s, i)
  }

  function StepCall(s: Cell, c: nat): Cell
    requires c in s.calls
  {
    var call := s.calls[c];
    match call.pc
    case Remote =>
      s.(fault := Check(s, true), word := ToNotifiedWithoutSubmit(s.word).0, log := Woken(s),
         calls := if ToNotifiedWithoutSubmit(s.word).1 then s.calls - {c} else s.calls[c := call.(pc := SendIncrement)])
    case Local =>
      s.(fault := Check(s, true), word := ToNotified(s.word).0, log := Woken(s),
         calls := if ToNotified(s.word).1 then s.calls[c := call.(pc := TaskIncrement)] else s.calls - {c},
         roles := if ToNotified(s.word).1 then s.roles.(duty := ByCall(c)) else s.roles)
    case _ => s
  }

  /** The ref_inc of a wake_by_ref that has to hand over a reference; the call's own part is over. */
  function IncrementForCall(s: Cell, c: nat, born: Id): Cell
    requires c in s.calls
  {
    AddOwner(s,
             s.(calls := s.calls - {c},
                roles := if s.calls[c].pc.SendIncrement? then s.roles else WithDuty(s, Task(born))),
             born, if s.calls[c].pc.SendIncrement? then Sending else InHand)
  }

  function WithDuty(s: Cell, duty: Duty): RoleTable { s.roles.(duty := duty) }

  /** A Task thrown away without being run: TaskQueue::drop drops it, BlockingTask::drop cancels it first. */
  function Discarded(s: Cell, i: Id): Cell {
    At(s, i, if s.blocking then Starting(true) else Dropping).(
      roles := if s.blocking then s.roles else WithDuty(s, Abandoned))
  }

  function EndPoll(s: Cell, i: Id, ready: Option<Output>): Cell {
    At(s, i, if ready.Some? then Storing(ready.value) else Idling).(
      fault := Check(s, s.stage.Unfinished?), stage := if ready.Some? then Consumed else s.stage)
  }

  /** The state after a move. */
  function Apply(s: Cell, m: Move): Cell
    requires Enabled(s, m)
  {
    match m
    case Step(i) => StepOwner(s, i)
    case StepInc(i, born) => AddOwner(s, At(s, i, Dropping).(roles := WithDuty(s, Task(born))), born, InHand)
    case Pop(i) => At(s, i, Starting(false))
    case Discard(i) => Discarded(s, i)
    case PollEnds(i, ready) => EndPoll(s, i, ready)
    case PollJoin(i, w) => AtPc(s, i, Loading(w))
    case DropJoin(i) => AtPc(s, i, FastDrop)
    case Clone(l, born) => AddOwner(s, s, born, IdleWaker)
    case WakeByVal(i, remote) => At(s, i, if remote then WakingRemote else WakingLocal)
    case WakeByRef(l, c, remote) => s.(calls := s.calls[c := Call(l, if remote then Remote else Local)])
    case DropWaker(i) => At(s, i, Dropping)
    case CallStep(c) => StepCall(s, c)
    case CallInc(c, born) => IncrementForCall(s, c, born)
    case Receive(i) => At(s, i, WakingLocal)
    case CloseChannel => s.(channelOpen := false)
    case DropQueuedWaker(i) => At(s, i, Dropping)
    case Free => s.(life := Freed, log := s.log.(frees := s.log.frees + 1))
  }

  // ----- the invariant -----

  predicate Runs(o: Owner) { o.Polling? || o.Storing? || o.Idling? || o.Completing? }

  predicate HasDuty(o: Owner) { o.Queued? || o.InHand? || o.Starting? || o.Rescheduling? }

  predicate Completes(o: Owner) { o.Disposing? || o.WakingJoin? }

  /** A wake on its way to the owner thread. */
  predicate InTransit(o: Owner) { o.Sending? || o.InChannel? || o.WakingLocal? }

  ghost predicate References(s: Cell) {
    && s.word.refs == |s.owners|
    && (s.life == Live <==> |s.owners| > 0)
    && s.log.frees == (if s.life == Freed then 1 else 0)
    && (forall c :: c in s.calls ==> CanLend(s, s.calls[c].lender))
  }

  ghost predicate Roles(s: Cell) {
    && (forall i :: i in s.owners ==> (Runs(s.owners[i]) <==> s.roles.runner == Some(i)))
    && (forall i :: i in s.owners ==> (HasDuty(s.owners[i]) <==> s.roles.duty == Task(i)))
    && (forall i :: i in s.owners ==> (s.owners[i].Handle? <==> s.roles.handle == Some(i)))
    && (forall i :: i in s.owners ==> (Completes(s.owners[i]) <==> s.roles.completer == Some(i)))
    && (forall c :: c in s.calls ==> (s.calls[c].pc.TaskIncrement? <==> s.roles.duty == ByCall(c)))
    && (s.roles.runner.Some? ==> s.roles.runner.value in s.owners)
    && (s.roles.duty.Task? ==> s.roles.duty.id in s.owners)
    && (s.roles.handle.Some? ==> s.roles.handle.value in s.owners)
    && (s.roles.completer.Some? ==> s.roles.completer.value in s.owners)
    && (s.roles.duty.ByCall? ==> s.roles.duty.call in s.calls)
  }

  ghost predicate Lifecycle(s: Cell) {
    && (s.word.running <==> s.roles.runner.Some?)
    && !(s.word.running && s.word.complete)
    && (s.word.IsIdle() && s.word.notified <==> s.roles.duty != Nobody)
    && s.log.completions == (if s.word.complete then 1 else 0)
    && (s.roles.completer.Some? ==> s.word.complete)
  }

  function RunnerOf(s: Cell): Option<Owner> {
    if s.roles.runner.Some? && s.roles.runner.value in s.owners then Some(s.owners[s.roles.runner.value]) else None
  }

  function CompleterOf(s: Cell): Option<Owner> {
    if s.roles.completer.Some? && s.roles.completer.value in s.owners
    then Some(s.owners[s.roles.completer.value]) else None
  }

  function HandleOf(s: Cell): Option<JoinPc> {
    if s.roles.handle.Some? && s.roles.handle.value in s.owners && s.owners[s.roles.handle.value].Handle?
    then Some(s.owners[s.roles.handle.value].pc) else None
  }

  ghost predicate StageAgrees(s: Cell) {
    && (!s.word.complete ==>
          match RunnerOf(s)
          case Some(Completing) => s.stage.Finished? && s.log.outputs == [s.stage.out]
          case Some(Storing(out)) =>
            s.stage == (if out.Canceled? && s.stage.Unfinished? then Unfinished else Consumed) && s.log.outputs == []
          case _ => s.stage.Unfinished? && s.log.outputs == [])
    && (s.word.complete ==> !s.stage.Unfinished? && |s.log.outputs| == 1)
    && (s.stage.Finished? ==> s.log.outputs == [s.stage.out])
    && |s.log.disposals| == (if s.word.complete && s.stage.Consumed? then 1 else 0)
    && (s.log.disposals != [] ==> s.log.outputs == [s.log.disposals[0].out])
    && (CompleterOf(s) == Some(Disposing) ==> s.stage.Finished? && !s.word.joinInterest && s.roles.handle.None?)
    && (s.stage.Finished? && s.word.complete ==>
          || CompleterOf(s) == Some(Disposing)
          || (HandleOf(s).Some? && !HandleOf(s).value.Joined? && s.word.joinInterest))
  }

  ghost predicate JoinAgrees(s: Cell) {
    && (HandleOf(s).Some? ==> s.word.joinInterest)
    && (s.word.joinInterest && !s.word.complete ==> HandleOf(s).Some?)
    && (s.word.joinWaker ==> s.slot.Some?)
    && (CompleterOf(s) == Some(WakingJoin) ==> s.word.joinWaker && s.log.woken.None?)
    && (s.log.woken.Some? ==> s.word.complete)
    && match HandleOf(s)
       case None => true
       case Some(Resting(None)) => !s.word.joinWaker && (s.word.complete ==> s.stage.Finished?)
       case Some(Resting(Some(w))) =>
         s.word.joinWaker && s.slot == Some(w) && (s.word.complete ==> s.stage.Finished?)
         && (s.word.complete && CompleterOf(s) != Some(WakingJoin) ==> s.log.woken == Some(w))
       case Some(Loading(_)) => s.word.complete ==> s.stage.Finished?
       case Some(Comparing(w)) =>
         s.word.joinWaker && (s.word.complete ==> s.stage.Finished?)
         && (s.word.complete && CompleterOf(s) != Some(WakingJoin) ==> s.log.woken == s.slot)
       case Some(Unsetting(w)) => s.word.joinWaker && (s.word.complete ==> s.stage.Finished?)
       case Some(Writing(_)) => !s.word.joinWaker && (s.word.complete ==> s.stage.Finished?)
       case Some(Setting(w)) => !s.word.joinWaker && s.slot == Some(w) && (s.word.complete ==> s.stage.Finished?)
       case Some(Clearing) => !s.word.joinWaker && s.word.complete && s.stage.Finished?
       case Some(Taking) => s.word.complete && s.stage.Finished?
       case Some(Joined) => s.word.complete && s.stage.Consumed?
       case Some(DroppingOutput) => s.word.complete
       case Some(_) => true
  }

  ghost predicate NoWakeLost(s: Cell) {
    s.log.wakePending && s.channelOpen && !s.word.complete ==>
      || s.word.notified
      || (exists i :: i in s.owners && InTransit(s.owners[i]))
      || (exists c :: c in s.calls && s.calls[c].pc.SendIncrement?)
  }

  ghost predicate BlockingShape(s: Cell) {
    s.blocking ==>
      && s.calls == map[]
      && (forall i :: i in s.owners ==> !s.owners[i].InHand? && !s.owners[i].Rescheduling? && !s.owners[i].Idling?
                                        && !s.owners[i].IdleWaker? && !InTransit(s.owners[i])
                                        && !s.owners[i].WakingRemote?)
      && !s.roles.duty.Abandoned?
      && (s.word.complete || s.roles.duty != Nobody || s.roles.runner.Some?)
  }

  ghost predicate Inv(s: Cell) {
    && !s.fault
    && References(s)
    && Roles(s)
    && Lifecycle(s)
    && StageAgrees(s)
    && JoinAgrees(s)
    && NoWakeLost(s)
    && BlockingShape(s)
  }
}
