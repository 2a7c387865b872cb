/** The task cell's code as it runs (crates/monoio/src/task/harness.rs, core.rs, join.rs, mod.rs and waker.rs):
    sequences of accesses to the memory of one cell, each a move of TaskProtocol, with any moves of other owners in
    between. What the code asserts or takes for granted about the memory is proved here from the protocol's invariant.
    */
module TaskHarness {
  import opened Prelude
  import opened TaskState
  import opened TaskProtocol
  import opened TaskInvariant
  import opened TaskTheorems

  // ----- one step of owner `i`, seen from its code -----

  ghost predicate Reachable(s: Cell) {
    exists blocking: bool, states: seq<Cell>, moves: seq<Move> ::
      Run(blocking, states, moves) && states[|moves|] == s
  }

  lemma ExtendRun(blocking: bool, states: seq<Cell>, moves: seq<Move>, m: Move)
    requires Run(blocking, states, moves) && Enabled(states[|moves|], m)
    ensures Run(blocking, states + [Apply(states[|moves|], m)], moves + [m])
  {
    var states', moves' := states + [Apply(states[|moves|], m)], moves + [m];
    forall k: nat | k < |moves'|
      ensures MoveAt(states', moves', k)
    {
      assert k < |moves| ==> MoveAt(states, moves, k);
    }
  }

  lemma ReachableInv(s: Cell)
    requires Reachable(s)
    ensures Inv(s)
  {
    var blocking: bool, states: seq<Cell>, moves: seq<Move> :| Run(blocking, states, moves) && states[|moves|] == s;
    RunReachesInv(blocking, states, moves, |moves|, s);
  }

  /** The move is one of owner `i`'s own. */
  predicate By(m: Move, i: Id) {
    match m
    case Step(j) => j == i
    case StepInc(j, _) => j == i
    case Pop(j) => j == i
    case Discard(j) => j == i
    case PollEnds(j, _) => j == i
    case PollJoin(j, _) => j == i
    case DropJoin(j) => j == i
    case WakeByVal(j, _) => j == i
    case DropWaker(j) => j == i
    case Receive(j) => j == i
    case DropQueuedWaker(j) => j == i
    case _ => false
  }

  lemma TaskStepKeepsOwner(s: Cell, j: Id, i: Id)
    requires i in s.owners && j in s.owners && j != i
    ensures var t := StepTask(s, j); i in t.owners && t.owners[i] == s.owners[i]
    ensures var t := StepWaker(s, j); i in t.owners && t.owners[i] == s.owners[i]
  {
  }

  lemma HandleStepKeepsOwner(s: Cell, j: Id, i: Id)
    requires i in s.owners && j in s.owners && j != i && s.owners[j].Handle?
    ensures var t := StepHandle(s, j); i in t.owners && t.owners[i] == s.owners[i]
    ensures var t := FastDropped(s, j); i in t.owners && t.owners[i] == s.owners[i]
  {
  }

  lemma StepKeepsOwner(s: Cell, j: Id, i: Id)
    requires i in s.owners && j in s.owners && j != i && MovesAlone(s.owners[j])
    ensures var t := StepOwner(s, j); i in t.owners && t.owners[i] == s.owners[i]
  {
    if s.owners[j].Handle? {
      HandleStepKeepsOwner(s, j, i);
    } else if !s.owners[j].Dropping? {
      TaskStepKeepsOwner(s, j, i);
    }
  }

  /** No other owner can move `i` on. */
  lemma OthersKeepOwner(s: Cell, m: Move, i: Id)
    requires Enabled(s, m) && i in s.owners && !By(m, i)
    ensures var t := Apply(s, m); i in t.owners && t.owners[i] == s.owners[i]
  {
    if m.Step? {
      StepKeepsOwner(s, m.i, i);
    }
  }

  /** A call of wake_by_ref is moved on only by itself. */
  lemma OthersKeepCall(s: Cell, m: Move, c: nat)
    requires Enabled(s, m) && c in s.calls && m != CallStep(c) && !(m.CallInc? && m.call == c)
    ensures var t := Apply(s, m); c in t.calls && t.calls[c] == s.calls[c]
  {
    if m.Step? {
      match s.owners[m.i] {
        case Handle(_) =>
        case WakingRemote | WakingLocal | Sending =>
        case _ =>
      }
    }
  }

  /** While a completing owner is about to wake the joining task, the slot is its own. */
  lemma OthersKeepSlot(s: Cell, m: Move, i: Id)
    requires Reachable(s) && Enabled(s, m) && i in s.owners && s.owners[i] == WakingJoin && !By(m, i)
    ensures Apply(s, m).slot == s.slot
  {
    if m.Step? {
      StepKeepsSlot(s, m.i, i);
    }
  }

  lemma StepKeepsSlot(s: Cell, j: Id, i: Id)
    requires Reachable(s) && i in s.owners && s.owners[i] == WakingJoin && j in s.owners && j != i
    requires MovesAlone(s.owners[j])
    ensures StepOwner(s, j).slot == s.slot
  {
    ReachableInv(s);
    assert CompleterOf(s) == Some(WakingJoin);
    if s.owners[j].Handle? {
      assert HandleOf(s) == Some(s.owners[j].pc);
    }
  }

  /** A step of an owner finds what its code relies on. */
  lemma StepFacts(s: Cell, i: Id)
    requires Reachable(s) && Enabled(s, Step(i))
    ensures !StepOwner(s, i).fault && s.life == Live
  {
    ReachableInv(s);
    MoveKeepsInv(s, Step(i));
    SomebodyThere(s, Step(i));
  }

  lemma HandleFacts(s: Cell, i: Id, pc: JoinPc)
    requires Reachable(s) && !s.aborted && i in s.owners && s.owners[i] == Handle(pc) && MovesAlone(Handle(pc))
    requires !pc.FastDrop?
    ensures HandleEffect(pc, Before(s, Handle(pc))).ok
  {
    StepFacts(s, i);
  }

  lemma TaskFacts(s: Cell, i: Id)
    requires Reachable(s) && !s.aborted && TaskStep(s, i)
    ensures TaskEffect(i, s.owners[i], s.blocking, Before(s, s.owners[i])).ok
  {
    StepFacts(s, i);
  }

  lemma DropFacts(s: Cell, i: Id)
    requires Reachable(s) && !s.aborted && i in s.owners && s.owners[i] == Dropping
    ensures s.word.refs >= 1 && s.life == Live
  {
    StepFacts(s, i);
  }

  lemma TaskStepIs(s: Cell, i: Id)
    requires !s.aborted && TaskStep(s, i)
    ensures Enabled(s, Step(i)) && Apply(s, Step(i)) == StepTask(s, i)
  {
  }

  lemma WakerStepIs(s: Cell, i: Id)
    requires !s.aborted && WakerStep(s, i)
    ensures Enabled(s, Step(i)) && Apply(s, Step(i)) == StepWaker(s, i)
  {
  }

  /** After the join interest is gone there is no output left that the handle answers for; with the output taken or
      dropped there is exactly one disposal. */
  lemma DisposalFacts(s: Cell)
    requires Reachable(s)
    ensures |s.log.outputs| <= 1 && |s.log.disposals| <= 1
    ensures s.stage.Finished? ==> s.log.outputs == [s.stage.out]
    ensures s.stage.Finished? && s.word.complete ==> s.log.disposals == []
    ensures s.word.complete && s.stage.Consumed? ==> |s.log.disposals| == 1
    ensures s.log.disposals != [] ==> s.log.outputs == [s.log.disposals[0].out]
    ensures s.word.refs == |s.owners| && (s.life == Live <==> |s.owners| > 0)
    ensures s.log.frees == if s.life == Freed then 1 else 0
  {
    ReachableInv(s);
  }

  lemma FutureFacts(s: Cell, i: Id)
    requires Reachable(s) && i in s.owners && s.owners[i] == Polling
    ensures s.stage.Unfinished?
  {
    ReachableInv(s);
    assert RunnerOf(s) == Some(Polling);
  }

  /** The owner that is in the middle of a call has the stage in the state its code expects. */
  lemma OwnerFacts(s: Cell, i: Id)
    requires Reachable(s) && i in s.owners
    ensures s.owners[i] == Handle(Taking) ==> s.word.complete && s.stage.Finished?
    ensures s.owners[i] == Handle(Clearing) || s.owners[i] == Handle(DroppingOutput) ==> s.word.complete
    ensures s.owners[i] == Disposing ==> s.word.complete && s.stage.Finished?
    ensures s.owners[i].Storing? ==> s.log.outputs == []
    ensures s.owners[i] == WakingJoin ==> s.slot.Some?
    ensures s.owners[i] == Idling ==> !s.word.complete
  {
    ReachableInv(s);
    assert s.owners[i].Handle? ==> HandleOf(s) == Some(s.owners[i].pc);
    assert Completes(s.owners[i]) ==> CompleterOf(s) == Some(s.owners[i]);
    assert Runs(s.owners[i]) ==> RunnerOf(s) == Some(s.owners[i]);
  }

  /** The word never comes near its limit: an increment past isize::MAX ends the process. */
  ghost predicate WordFits(s: Cell) { s.word.refs <= ISIZE_MAX / REF_ONE + 1 }

  lemma StepKeepsFit(s: Cell, i: Id)
    requires i in s.owners && MovesAlone(s.owners[i]) && WordFits(s)
    ensures WordFits(StepOwner(s, i))
  {
    match s.owners[i]
    case Handle(_) =>
    case WakingRemote | WakingLocal | Sending =>
    case _ =>
  }

  lemma MoveKeepsFit(s: Cell, m: Move)
    requires Enabled(s, m) && WordFits(s)
    ensures WordFits(Apply(s, m))
  {
    if m.Step? {
      StepKeepsFit(s, m.i);
    }
  }

  lemma {:induction false} RunFits(blocking: bool, states: seq<Cell>, moves: seq<Move>, k: nat)
    requires Run(blocking, states, moves) && k < |states|
    ensures WordFits(states[k])
  {
    if k > 0 {
      RunFits(blocking, states, moves, k - 1);
      assert MoveAt(states, moves, k - 1);
      MoveKeepsFit(states[k - 1], moves[k - 1]);
    }
  }

  lemma ReachableFits(s: Cell)
    requires Reachable(s)
    ensures Pack(s.word) < WORD_LIMIT
  {
    var blocking: bool, states: seq<Cell>, moves: seq<Move> :| Run(blocking, states, moves) && states[|moves|] == s;
    RunFits(blocking, states, moves, |moves|);
  }

  /** A finite set of ids has an upper bound. */
  lemma {:induction false} UnusedAbove(ids: set<Id>) returns (born: Id)
    ensures forall i :: i in ids ==> i < born
    decreases |ids|
  {
    if ids == {} {
      born := 0;
    } else {
      var i :| i in ids;
      born := UnusedAbove(ids - {i});
      assert forall j :: j in ids ==> j == i || j in ids - {i};
      if born <= i {
        born := i + 1;
      }
    }
  }

  /** Whether the transition of a wake leaves something to do. */
  predicate Asks(word: Snapshot, remote: bool) {
    if remote then !ToNotifiedWithoutSubmit(word).1 else ToNotified(word).1
  }

  lemma CallFacts(s: Cell, c: nat)
    requires Reachable(s) && !s.aborted && c in s.calls && (s.calls[c].pc.Remote? || s.calls[c].pc.Local?)
    ensures Enabled(s, CallStep(c))
  {
  }

  /** A closed channel stays closed. */
  lemma {:induction false} RunKeepsClosed(blocking: bool, states: seq<Cell>, moves: seq<Move>, j: nat, k: nat)
    requires Run(blocking, states, moves) && j <= k < |states| && !states[j].channelOpen
    ensures !states[k].channelOpen
  {
    if j < k {
      RunKeepsClosed(blocking, states, moves, j, k - 1);
      assert MoveAt(states, moves, k - 1);
      MoveKeepsClosed(states[k - 1], moves[k - 1]);
    }
  }

  lemma MoveKeepsClosed(s: Cell, m: Move)
    requires Enabled(s, m) && !s.channelOpen
    ensures !Apply(s, m).channelOpen
  {
  }

  /** The task will run again on account of the wake that owner `i` makes, or is complete. */
  predicate WakeRegistered(s: Cell, i: Id) {
    s.word.notified || s.word.complete || (i in s.owners && s.owners[i].Sending?)
  }

  // ----- the cell -----

  /** The memory of a cell. The history is the run of the protocol so far: every method continues it, by the moves that
      its accesses are and those that the other owners make in between. */
  class Harness {
    const state: State              // header
    var stage: Stage                // core
    var waker: Option<WakerId>      // trailer
    var world: Cell                 // who owns the references, and what they are doing; it mirrors the memory
    var coming: seq<Move>           // what the other owners will do
    ghost const kind: bool          // made by spawn_blocking
    ghost var states: seq<Cell>
    ghost var moves: seq<Move>

    ghost predicate Mirrors()
      reads this, state
    {
      state.View() == world.word && stage == world.stage && waker == world.slot
    }

    ghost predicate Recorded()
      reads this
    {
      Run(kind, states, moves) && world == states[|moves|]
    }

    /** The run has ended in the abort of the process. */
    ghost predicate Aborted()
      reads this
    {
      Recorded() && world.aborted
    }

    /** The process is alive, and memory and history agree. */
    ghost predicate Sound()
      reads this, state
    {
      Recorded() && !world.aborted && Mirrors()
    }

    ghost predicate SoundBehind(u: bool)
      reads this, state
    {
      Sound()
    }

    /** Sound(), behind a quantifier that nothing instantiates but Open, so that a sequence of calls hands it on
        whole. */
    ghost predicate Valid()
      reads this, state
    {
      |states| == |moves| + 1 && world == states[|moves|] && forall u: bool {:trigger SoundBehind(u)} :: SoundBehind(u)
    }

    lemma Open()
      requires Valid()
      ensures Sound()
    {
      assert SoundBehind(true);
    }

    twostate predicate Continues()
      reads this
    {
      old(states) <= states && old(moves) <= moves
    }

    constructor (blocking: bool, coming: seq<Move>)
      ensures Valid() && world == New(blocking) && moves == [] && kind == blocking && fresh(state)
    {
      state := new State();
      stage, waker := Unfinished, None;
      world := New(blocking);
      this.coming := coming;
      kind, states, moves := blocking, [New(blocking)], [];
    }

    /** Where owner `i` is in its code. */
    ghost predicate IsAt(i: Id, o: Owner)
      reads this
    {
      i in world.owners && world.owners[i] == o
    }

    /** The `k`-th move was the step of owner `i` from `o`. */
    ghost predicate Stepped(k: nat, i: Id, o: Owner)
      reads this
    {
      k < |moves| && k < |states| && moves[k] == Step(i) && i in states[k].owners && states[k].owners[i] == o
    }

    /** The last move was that step. */
    ghost predicate JustStepped(i: Id, o: Owner)
      reads this
    {
      |moves| > 0 && Stepped(|moves| - 1, i, o)
    }

    /** What is final in the `k`-th state of the history is so now. */
    lemma Final(k: nat)
      requires Recorded() && k < |states|
      ensures Later(states[k], world)
    {
      RunGoesOn(kind, states, moves, k, |moves|);
    }

    /** A move has been made: the world and the history go on. */
    method Did(m: Move)
      requires Recorded() && Enabled(world, m)
      modifies this`world, this`states, this`moves
      ensures Recorded() && world == Apply(old(world), m)
      ensures states == old(states) + [world] && moves == old(moves) + [m]
    {
      ExtendRun(kind, states, moves, m);
      world := Apply(world, m);
      states, moves := states + [world], moves + [m];
    }

    /** A move of somebody else. */
    method Happen(m: Move)
      requires Sound() && Enabled(world, m) && !Apply(world, m).aborted
      modifies this`world, this`stage, this`waker, this`states, this`moves, state
      ensures Sound() && Continues() && world == Apply(old(world), m)
    {
      Did(m);
      UnpackPack(world.word);
      state.word := Pack(world.word);
      stage, waker := world.stage, world.slot;
    }

    /** Some of what the other owners have to do, short of an abort, which would end the process. */
    method Others(i: Id)
      requires Valid() && i in world.owners
      modifies this, state
      ensures Valid() && Sound() && Continues() && IsAt(i, old(world.owners[i]))
      ensures old(IsAt(i, WakingJoin)) ==> waker == old(waker)
    {
      Open();
      var n: nat := *;
      while n > 0 && coming != []
        invariant Sound() && Continues() && IsAt(i, old(world.owners[i]))
        invariant old(IsAt(i, WakingJoin)) ==> waker == old(waker)
        decreases |coming|
      {
        var m := coming[0];
        coming, n := coming[1..], n - 1;
        if Enabled(world, m) && !By(m, i) && !Apply(world, m).aborted {
          OthersKeepOwner(world, m, i);
          if world.owners[i] == WakingJoin {
            OthersKeepSlot(world, m, i);
          }
          Happen(m);
        }
      }
    }

    /** The same, in the middle of the call `c` of wake_by_ref. */
    method OthersDuringCall(c: nat)
      requires Valid() && c in world.calls
      modifies this, state
      ensures Valid() && Sound() && Continues() && c in world.calls && world.calls[c] == old(world.calls[c])
    {
      Open();
      var n: nat := *;
      while n > 0 && coming != []
        invariant Sound() && Continues() && c in world.calls && world.calls[c] == old(world.calls[c])
        decreases |coming|
      {
        var m := coming[0];
        coming, n := coming[1..], n - 1;
        if Enabled(world, m) && m != CallStep(c) && !(m.CallInc? && m.call == c) && !Apply(world, m).aborted {
          OthersKeepCall(world, m, c);
          Happen(m);
        }
      }
    }

    // ----- the single accesses; each comes after anything that others may do -----

    /** The owner has made the access that the protocol calls its next step. */
    method HandleStep(i: Id, pc: JoinPc)
      requires Recorded() && !world.aborted && IsAt(i, Handle(pc)) && MovesAlone(Handle(pc)) && !pc.FastDrop?
      requires var e := HandleEffect(pc, Before(world, Handle(pc)));
        state.View() == e.word && stage == e.stage && waker == e.slot
      modifies this`world, this`states, this`moves
      ensures Valid() && Continues() && JustStepped(i, Handle(pc)) && states[|moves| - 1] == old(world)
      ensures world == StepHandle(old(world), i)
    {
      Did(Step(i));
    }

    method TakeTaskStep(i: Id)
      requires Recorded() && !world.aborted && TaskStep(world, i)
      requires var e := TaskEffect(i, world.owners[i], world.blocking, Before(world, world.owners[i]));
        state.View() == e.word && stage == e.stage && waker == e.slot
      modifies this`world, this`states, this`moves
      ensures Valid() && Continues() && JustStepped(i, old(world.owners[i])) && states[|moves| - 1] == old(world)
      ensures world == StepTask(old(world), i)
    {
      TaskStepIs(world, i);
      Did(Step(i));
    }

    method TakeWakerStep(i: Id)
      requires Recorded() && !world.aborted && WakerStep(world, i)
      requires var e := WakerEffect(i, world.owners[i], world.channelOpen, Before(world, world.owners[i]));
        state.View() == e.word && stage == e.stage && waker == e.slot
      modifies this`world, this`states, this`moves
      ensures Valid() && Continues() && JustStepped(i, old(world.owners[i])) && states[|moves| - 1] == old(world)
      ensures world == StepWaker(old(world), i)
    {
      WakerStepIs(world, i);
      Did(Step(i));
    }

    method Load(i: Id, w: WakerId) returns (snapshot: Snapshot)
      requires Valid() && IsAt(i, Handle(Loading(w)))
      modifies this, state
      ensures Valid() && Continues()
      ensures snapshot == world.word && snapshot.joinInterest
      ensures IsAt(i, Handle(if snapshot.complete then Taking
                             else if snapshot.joinWaker then Comparing(w) else Writing(w)))
    {
      Others(i);
      HandleFacts(world, i, Loading(w));
      snapshot := Unpack(state.word);
      HandleStep(i, Loading(w));
    }

    /** Trailer::will_wake; the slot is not empty. */
    method WillWake(i: Id, w: WakerId) returns (same: bool)
      requires Valid() && IsAt(i, Handle(Comparing(w)))
      modifies this, state
      ensures Valid() && Continues()
      ensures waker.Some? && same == (waker == Some(w))
      ensures IsAt(i, Handle(if same then Resting(Some(w)) else Unsetting(w)))
    {
      Others(i);
      HandleFacts(world, i, Comparing(w));
      same := waker.value == w;
      HandleStep(i, Comparing(w));
    }

    method UnsetWaker(i: Id, w: WakerId) returns (ok: bool)
      requires Valid() && IsAt(i, Handle(Unsetting(w)))
      modifies this, state
      ensures Valid() && Continues()
      ensures IsAt(i, Handle(if ok then Writing(w) else Taking)) && ok == !world.word.complete
    {
      Others(i);
      HandleFacts(world, i, Unsetting(w));
      ok := state.UnsetWaker();
      HandleStep(i, Unsetting(w));
    }

    method WriteWaker(i: Id, w: WakerId)
      requires Valid() && IsAt(i, Handle(Writing(w)))
      modifies this, state
      ensures Valid() && Continues() && IsAt(i, Handle(Setting(w)))
      ensures waker == Some(w)
    {
      Others(i);
      waker := Some(w);
      HandleStep(i, Writing(w));
    }

    method SetBit(i: Id, w: WakerId) returns (ok: bool)
      requires Valid() && IsAt(i, Handle(Setting(w)))
      modifies this, state
      ensures Valid() && Continues()
      ensures IsAt(i, Handle(if ok then Resting(Some(w)) else Clearing)) && ok == !world.word.complete
    {
      Others(i);
      HandleFacts(world, i, Setting(w));
      ok := state.SetJoinWaker();
      HandleStep(i, Setting(w));
    }

    method ClearWaker(i: Id)
      requires Valid() && IsAt(i, Handle(Clearing))
      modifies this, state
      ensures Valid() && Continues() && IsAt(i, Handle(Taking))
      ensures waker == None && world.word.complete
    {
      Others(i);
      OwnerFacts(world, i);
      waker := None;
      HandleStep(i, Clearing);
    }

    /** CoreStage::take_output; the stage holds the output. */
    method TakeOutput(i: Id) returns (out: Output)
      requires Valid() && IsAt(i, Handle(Taking))
      modifies this, state
      ensures Valid() && Continues() && IsAt(i, Handle(Joined))
      ensures world.word.complete && stage == Consumed
      ensures world.log.outputs == [out] && world.log.disposals == [Disposal(TakenByHandle, out)]
    {
      Others(i);
      OwnerFacts(world, i);
      DisposalFacts(world);
      out := stage.out;
      stage := Consumed;
      HandleStep(i, Taking);
    }

    method UnsetJoinInterested(i: Id) returns (ok: bool)
      requires Valid() && IsAt(i, Handle(SlowDrop))
      modifies this, state
      ensures Valid() && Continues()
      ensures IsAt(i, if ok then Dropping else Handle(DroppingOutput))
      ensures if ok then !world.word.joinInterest else world.word.complete
    {
      Others(i);
      HandleFacts(world, i, SlowDrop);
      ok := state.UnsetJoinInterested();
      HandleStep(i, SlowDrop);
    }

    /** drop_future_or_output by the JoinHandle. */
    method DropOutput(i: Id)
      requires Valid() && IsAt(i, Handle(DroppingOutput))
      modifies this, state
      ensures Valid() && Continues() && IsAt(i, Dropping)
      ensures stage == Consumed && |world.log.disposals| == 1
    {
      Others(i);
      OwnerFacts(world, i);
      stage := Consumed;
      HandleStep(i, DroppingOutput);
      Open();
      DisposalFacts(world);
    }

    method TransitionToRunning(i: Id, cancel: bool)
      requires Valid() && IsAt(i, Starting(cancel))
      modifies this, state
      ensures Valid() && Continues()
      ensures IsAt(i, if cancel then Storing(Canceled) else Polling) && world.word.running && !world.word.notified
    {
      Others(i);
      TaskFacts(world, i);
      state.TransitionToRunning();
      TakeTaskStep(i);
    }

    method StoreOutput(i: Id, out: Output)
      requires Valid() && IsAt(i, Storing(out))
      modifies this, state
      ensures Valid() && Continues() && IsAt(i, Completing)
      ensures stage == Finished(out) && world.log.outputs == [out]
    {
      Others(i);
      OwnerFacts(world, i);
      stage := Finished(out);
      TakeTaskStep(i);
      assert [] + [out] == [out];
    }

    method TransitionToIdle(i: Id) returns (notified: bool)
      requires Valid() && IsAt(i, Idling)
      modifies this, state
      ensures Valid() && Continues() && JustStepped(i, Idling) && IsAt(i, if notified then Rescheduling else Dropping)
      ensures world.word.IsIdle() && notified == states[|moves| - 1].word.notified
    {
      Others(i);
      TaskFacts(world, i);
      OwnerFacts(world, i);
      notified := state.TransitionToIdle();
      TakeTaskStep(i);
    }

    method TransitionToComplete(i: Id) returns (snapshot: Snapshot)
      requires Valid() && IsAt(i, Completing)
      modifies this, state
      ensures Valid() && Continues() && JustStepped(i, Completing)
      ensures snapshot == world.word && world.word.complete
      ensures IsAt(i, if !snapshot.joinInterest then Disposing else if snapshot.joinWaker then WakingJoin else Dropping)
    {
      Others(i);
      TaskFacts(world, i);
      snapshot := state.TransitionToComplete();
      TakeTaskStep(i);
    }

    /** drop_future_or_output by the completing side. */
    method DropUnwanted(i: Id)
      requires Valid() && IsAt(i, Disposing)
      modifies this, state
      ensures Valid() && Continues() && IsAt(i, Dropping)
      ensures |world.log.disposals| == 1 && world.log.disposals[0].how == DroppedByCompleter
    {
      Others(i);
      OwnerFacts(world, i);
      DisposalFacts(world);
      stage := Consumed;
      TakeTaskStep(i);
    }

    /** Trailer::wake_join; the waker is not missing, and is the one that was there at completion. */
    method WakeJoin(i: Id) returns (woken: WakerId)
      requires Valid() && IsAt(i, WakingJoin)
      modifies this, state
      ensures Valid() && Continues() && IsAt(i, Dropping)
      ensures old(waker) == Some(woken) && world.log.woken == Some(woken)
    {
      Others(i);
      OwnerFacts(world, i);
      woken := waker.value;
      TakeTaskStep(i);
    }

    /** Schedule::schedule of a new Task; never reached with the scheduler of blocking tasks. */
    method Schedule(i: Id)
      requires Valid() && IsAt(i, InHand)
      modifies this, state
      ensures Valid() && Continues() && IsAt(i, Queued) && !world.blocking
    {
      Others(i);
      TaskFacts(world, i);
      TakeTaskStep(i);
    }

    /** drop_reference: who takes the count to zero deallocates. */
    method DropReference(i: Id)
      requires Valid() && IsAt(i, Dropping)
      modifies this, state
      ensures Valid() && Continues() && i !in world.owners && Later(old(world), world)
      ensures if world.owners == map[] then world.life == Freed && world.log.frees == 1 else world.life == Live
    {
      Open();
      ghost var k := |moves|;
      Others(i);
      GiveBack(i);
      Open();
      Final(k);
    }

    method GiveBack(i: Id)
      requires Sound() && IsAt(i, Dropping)
      modifies this, state
      ensures Valid() && Continues() && i !in world.owners
      ensures if world.owners == map[] then world.life == Freed && world.log.frees == 1 else world.life == Live
    {
      DropFacts(world, i);
      var last := state.RefDecrement();
      Did(Step(i));
      DisposalFacts(world);
      if last {
        Dealloc();
      }
    }

    /** dealloc, which is due. */
    method Dealloc()
      requires Sound() && world.life == Freeing
      modifies this`world, this`states, this`moves
      ensures Valid() && Continues() && world == old(world).(life := Freed, log := world.log) && world.log.frees == 1
    {
      Did(Free);
      DisposalFacts(world);
    }

    // ----- the JoinHandle -----

    /** set_join_waker: stores the waker, then sets the bit; if the task has completed meanwhile, clears the slot. */
    method SetJoinWaker(i: Id, w: WakerId) returns (ok: bool)
      requires Valid() && IsAt(i, Handle(Writing(w)))
      modifies this, state
      ensures Valid() && Continues() && IsAt(i, Handle(if ok then Resting(Some(w)) else Taking))
      ensures !ok ==> waker == None && world.word.complete
    {
      WriteWaker(i, w);
      ok := SetBit(i, w);
      if !ok {
        ClearWaker(i);
      }
    }

    /** can_read_output: false means that the waker is registered, and the task was not complete then. */
    method CanReadOutput(i: Id, w: WakerId) returns (can: bool)
      requires Valid() && IsAt(i, Handle(Loading(w)))
      modifies this, state
      ensures Valid() && Continues() && IsAt(i, Handle(if can then Taking else Resting(Some(w))))
      ensures can ==> world.word.complete
    {
      var snapshot := Load(i, w);
      if !snapshot.complete {
        var ok := RegisterWaker(i, w, snapshot.joinWaker);
        if ok {
          return false;
        }
      }
      return true;
    }

    /** The waker must be stored in the task: it is there already, or replaces the one that is, or is the first. */
    method RegisterWaker(i: Id, w: WakerId, hasWaker: bool) returns (ok: bool)
      requires Valid() && IsAt(i, Handle(if hasWaker then Comparing(w) else Writing(w)))
      modifies this, state
      ensures Valid() && Continues() && IsAt(i, Handle(if ok then Resting(Some(w)) else Taking))
      ensures !ok ==> world.word.complete
    {
      ok := true;
      if hasWaker {
        var same := WillWake(i, w);
        if same {
          return;
        }
        ok := UnsetWaker(i, w);
      }
      if ok {
        ok := SetJoinWaker(i, w);
      }
    }

    /** JoinHandle::poll, through try_read_output. On Ready the caller has the one output that this task has stored, and
        nobody else has or will; on Pending its waker is registered. */
    method PollJoinHandle(i: Id, w: WakerId) returns (r: Poll<Output>)
      requires Valid() && i in world.owners && world.owners[i].Handle? && world.owners[i].pc.Resting?
      modifies this, state
      ensures Valid() && Continues() && IsAt(i, Handle(if r.Ready? then Joined else Resting(Some(w))))
      ensures r.Ready? ==>
                && world.word.complete && world.log.outputs == [r.value]
                && world.log.disposals == [Disposal(TakenByHandle, r.value)]
    {
      Open();
      Did(PollJoin(i, w));
      var can := CanReadOutput(i, w);
      if !can {
        return Pending;
      }
      var out := TakeOutput(i);
      r := Ready(out);
    }

    /** JoinHandle::drop: the fast way, or unset_join_interested and, if the task had completed, the output dropped
        here. Either way the output is disposed of, now or by the completing side, which finds no interest. */
    method DropJoinHandle(i: Id)
      requires Valid() && i in world.owners && world.owners[i].Handle?
      requires world.owners[i].pc.Resting? || world.owners[i].pc.Joined?
      modifies this, state
      ensures Valid() && Continues() && i !in world.owners
      ensures !world.word.joinInterest || |world.log.disposals| == 1
    {
      Open();
      Did(DropJoin(i));
      var ok := DropFast(i);
      if !ok {
        DropSlow(i);
      }
    }

    /** drop_join_handle_slow */
    method DropSlow(i: Id)
      requires Valid() && IsAt(i, Handle(SlowDrop))
      modifies this, state
      ensures Valid() && Continues() && i !in world.owners
      ensures !world.word.joinInterest || |world.log.disposals| == 1
    {
      var ok := UnsetJoinInterested(i);
      if !ok {
        DropOutput(i);
      }
      GiveBackHandle(i);
    }

    method GiveBackHandle(i: Id)
      requires Valid() && IsAt(i, Dropping) && (!world.word.joinInterest || |world.log.disposals| == 1)
      modifies this, state
      ensures Valid() && Continues() && i !in world.owners
      ensures !world.word.joinInterest || |world.log.disposals| == 1
    {
      DropReference(i);
      Open();
      DisposalFacts(world);
    }

    method DropFast(i: Id) returns (ok: bool)
      requires Valid() && IsAt(i, Handle(FastDrop))
      modifies this, state
      ensures Valid() && Continues()
      ensures if ok then i !in world.owners && !world.word.joinInterest else IsAt(i, Handle(SlowDrop))
    {
      Others(i);
      ok := state.DropJoinHandleFast();
      Did(Step(i));
    }

    // ----- a Task -----

    /** complete, after which the Task is dropped. At the `at`-th move the task became complete; if nobody was
        interested, the output has been dropped on this side, and if a waker was registered it has been woken. */
    method Complete(i: Id) returns (ghost at: nat)
      requires Valid() && IsAt(i, Completing)
      modifies this, state
      ensures Valid() && Continues() && i !in world.owners && world.word.complete && Later(old(world), world)
      ensures |old(moves)| <= at && Stepped(at, i, Completing) && states[at + 1].word.complete
      ensures !states[at + 1].word.joinInterest ==>
                |world.log.disposals| == 1 && world.log.disposals[0].how == DroppedByCompleter
      ensures states[at + 1].word.joinInterest && states[at + 1].word.joinWaker ==>
                states[at + 1].slot.Some? && world.log.woken == states[at + 1].slot
    {
      Open();
      ghost var k := |moves|;
      var snapshot := TransitionToComplete(i);
      Open();
      at := |moves| - 1;
      Announce(i, snapshot);
      Open();
      Final(k);
    }

    /** What the completing side owes the JoinHandle, or itself. */
    method Announce(i: Id, snapshot: Snapshot)
      requires Valid() && snapshot == world.word && snapshot.complete
      requires IsAt(i, if !snapshot.joinInterest then Disposing
                       else if snapshot.joinWaker then WakingJoin else Dropping)
      modifies this, state
      ensures Valid() && Continues() && i !in world.owners && world.word.complete
      ensures !snapshot.joinInterest ==> |world.log.disposals| == 1 && world.log.disposals[0].how == DroppedByCompleter
      ensures snapshot.joinInterest && snapshot.joinWaker ==> old(waker).Some? && world.log.woken == old(waker)
    {
      Open();
      ghost var k := |moves|;
      if !snapshot.joinInterest {
        DropUnwanted(i);
      } else if snapshot.joinWaker {
        var woken := WakeJoin(i);
      }
      DropReference(i);
      Open();
      Final(k);
      DisposalFacts(world);
    }

    /** The first half of Task::run: the future is being polled from here on. */
    method BeginRun(i: Id)
      requires Valid() && IsAt(i, Queued)
      modifies this, state
      ensures Valid() && Continues() && IsAt(i, Polling)
      ensures world.word.running && !world.word.notified
    {
      Open();
      Did(Pop(i));
      TransitionToRunning(i, false);
    }

    /** The second half, with a ready future: its output has been stored and the task is complete. The Task is
        dropped. */
    method EndReady(i: Id, out: Output)
      requires Valid() && IsAt(i, Polling) && !Borrowed(world, i) && out.Value?
      modifies this, state
      ensures Valid() && Continues() && i !in world.owners
      ensures world.word.complete && world.log.outputs == [out]
    {
      FutureReturns(i, Some(out));
      Finish(i, out);
    }

    /** store_output and complete. */
    method Finish(i: Id, out: Output)
      requires Valid() && IsAt(i, Storing(out))
      modifies this, state
      ensures Valid() && Continues() && i !in world.owners
      ensures world.word.complete && world.log.outputs == [out]
    {
      StoreOutput(i, out);
      ghost var at := Complete(i);
      Open();
      DisposalFacts(world);
    }

    /** The second half, with a pending future whose calls on its own waker have returned too: at the `at`-th move the
        task became idle, and if it had been notified while it ran, a new Task, `born`, was queued before the old one
        was dropped, which is the `queued`-th state of the history. */
    method EndPending(i: Id) returns (abort: bool, ghost at: nat, ghost born: Id, ghost queued: nat)
      requires Valid() && IsAt(i, Polling) && !Borrowed(world, i) && !world.blocking
      modifies this, state
      ensures Continues() && |states| == |moves| + 1 && (abort ==> Aborted())
      ensures !abort ==> Valid() && i !in world.owners
      ensures |old(moves)| <= at && Stepped(at, i, Idling) && states[at + 1].word.IsIdle()
      ensures abort ==> states[at].word.notified
      ensures !abort && states[at].word.notified ==>
                at < queued < |states| && born in states[queued].owners && states[queued].owners[born] == Queued
    {
      FutureReturns(i, None);
      var notified := TransitionToIdle(i);
      at := |moves| - 1;
      abort, born, queued := Settle(i, notified);
    }

    /** The end of Harness::poll for a task that is idle again, and the drop of its Task. */
    method Settle(i: Id, notified: bool) returns (abort: bool, ghost born: Id, ghost queued: nat)
      requires Valid() && IsAt(i, if notified then Rescheduling else Dropping)
      modifies this, state
      ensures Continues() && |states| == |moves| + 1 && (abort ==> Aborted())
      ensures !abort ==> Valid() && i !in world.owners
      ensures abort ==> notified
      ensures !abort && notified ==>
                && |old(states)| <= queued < |states|
                && born in states[queued].owners && states[queued].owners[born] == Queued
    {
      abort, born, queued := false, i, 0;
      if notified {
        abort, born := Reschedule(i);
        queued := |moves|;
        if abort {
          return;
        }
      }
      DropReference(i);
    }

    /** CoreStage::poll: the stage holds the future, which is dropped when it is ready. */
    method FutureReturns(i: Id, ready: Option<Output>)
      requires Valid() && IsAt(i, Polling) && !Borrowed(world, i)
      requires (world.blocking ==> ready.Some?) && (ready.Some? ==> ready.value.Value?)
      modifies this
      ensures Valid() && Continues() && IsAt(i, if ready.Some? then Storing(ready.value) else Idling)
    {
      Open();
      FutureFacts(world, i);
      if ready.Some? {
        stage := Consumed;
      }
      Did(PollEnds(i, ready));
    }

    /** ref_inc, for a new owner that `t` is ready for; true is the abort of the process. */
    method IncrementFor(m: Move, t: Cell, born: Id, o: Owner) returns (abort: bool)
      requires Sound() && Enabled(world, m) && Apply(world, m) == AddOwner(world, t, born, o)
      requires t.stage == world.stage && t.slot == world.slot && !t.aborted
      modifies this`world, this`states, this`moves, state
      ensures Recorded() && Continues() && moves == old(moves) + [m] && abort == RefIncAborts(old(world.word))
      ensures abort ==> Aborted()
      ensures !abort ==> Valid() && world == AddOwner(old(world), t, born, o)
    {
      Open();
      ReachableFits(world);
      PackUnpack(state.word);
      abort := state.RefIncrement();
      Did(m);
    }

    /** The OkNotified end of Harness::poll: ref_inc, and a new Task for the queue. */
    method Reschedule(i: Id) returns (abort: bool, ghost newTask: Id)
      requires Valid() && IsAt(i, Rescheduling)
      modifies this, state
      ensures Continues() && |states| == |moves| + 1 && |moves| > |old(moves)| && (abort ==> Aborted())
      ensures !abort ==> Valid() && IsAt(i, Dropping) && IsAt(newTask, Queued)
    {
      Others(i);
      var born;
      born, abort := IncrementForTask(i);
      newTask := born;
      if !abort {
        YieldNow(born, i);
      }
    }

    method IncrementForTask(i: Id) returns (born: Id, abort: bool)
      requires Valid() && IsAt(i, Rescheduling)
      modifies this`world, this`states, this`moves, state
      ensures Continues() && |states| == |moves| + 1 && |moves| > |old(moves)| && (abort ==> Aborted())
      ensures !abort ==> Valid() && IsAt(i, Dropping) && IsAt(born, InHand) && born != i
    {
      Open();
      born := FreshId();
      var t := At(world, i, Dropping).(roles := WithDuty(world, Task(born)));
      abort := IncrementFor(StepInc(i, born), t, born, InHand);
    }

    method FreshId() returns (born: Id)
      ensures born !in world.owners
    {
      ghost var bound := UnusedAbove(world.owners.Keys);
      born := 0;
      while born in world.owners
        decreases bound - born
      {
        born := born + 1;
      }
    }

    /** yield_now of the new Task, while the old one is still there. */
    method YieldNow(born: Id, i: Id)
      requires Valid() && IsAt(born, InHand) && IsAt(i, Dropping) && born != i
      modifies this
      ensures Valid() && Continues() && IsAt(born, Queued) && IsAt(i, Dropping)
    {
      Open();
      TaskFacts(world, born);
      TakeTaskStep(born);
    }

    /** BlockingTask::drop: the task is finished as Canceled, and that is its only output. */
    method Cancel(i: Id)
      requires Valid() && IsAt(i, Queued) && world.blocking
      modifies this, state
      ensures Valid() && Continues() && i !in world.owners
      ensures world.word.complete && world.log.outputs == [Canceled]
    {
      Open();
      Did(Discard(i));
      TransitionToRunning(i, true);
      Finish(i, Canceled);
    }

    // ----- a waker -----

    /** clone_waker, of the waker that `lender` has. */
    method CloneWaker(lender: Id) returns (born: Id, abort: bool)
      requires Valid() && CanLend(world, lender)
      modifies this, state
      ensures Continues() && (abort ==> Aborted()) && abort == (Pack(old(world.word)) > 0x7FFF_FFFF_FFFF_FFFF)
      ensures !abort ==> Valid() && IsAt(born, IdleWaker) && born !in old(world.owners)
                         && IsAt(lender, old(world.owners[lender])) && world.word.refs == old(world.word.refs) + 1
    {
      Open();
      born := FreshId();
      abort := IncrementFor(Clone(lender, born), world, born, IdleWaker);
    }

    /** drop_waker */
    method DropWakerOf(i: Id)
      requires Valid() && IsAt(i, IdleWaker) && !Borrowed(world, i)
      modifies this, state
      ensures Valid() && Continues() && i !in world.owners
    {
      Open();
      Did(DropWaker(i));
      DropReference(i);
    }

    method NotifyRemote(i: Id) returns (handled: bool)
      requires Valid() && IsAt(i, WakingRemote)
      modifies this, state
      ensures Valid() && Continues() && JustStepped(i, WakingRemote) && IsAt(i, if handled then Dropping else Sending)
      ensures handled == ToNotifiedWithoutSubmit(states[|moves| - 1].word).1 && WakeRegistered(world, i)
    {
      Others(i);
      handled := state.TransitionToNotifiedWithoutSubmit();
      TakeWakerStep(i);
    }

    /** send_waker, to a channel whose receiver may be gone. */
    method SendWaker(i: Id) returns (sent: bool)
      requires Valid() && IsAt(i, Sending)
      modifies this, state
      ensures Valid() && Continues() && IsAt(i, if sent then InChannel else Dropping)
      ensures sent == world.channelOpen
    {
      Others(i);
      sent := world.channelOpen;
      TakeWakerStep(i);
    }

    method NotifyLocal(i: Id) returns (submit: bool)
      requires Valid() && IsAt(i, WakingLocal)
      modifies this, state
      ensures Valid() && Continues() && JustStepped(i, WakingLocal) && IsAt(i, if submit then InHand else Dropping)
      ensures submit == ToNotified(states[|moves| - 1].word).1 && WakeRegistered(world, i)
    {
      Others(i);
      submit := state.TransitionToNotified();
      TakeWakerStep(i);
    }

    /** wake_by_val. The `at`-th move is this call's transition, which registers the wake. Off the owner thread the
        reference then goes into the owner's channel unless nothing was left to do (or the channel is closed); on it, it
        becomes that of a queued Task exactly if the transition asked for one. Otherwise it has been given back. */
    method WakeByVal(i: Id, remote: bool) returns (ghost at: nat)
      requires Valid() && IsAt(i, IdleWaker) && !Borrowed(world, i) && (world.blocking ==> remote)
      modifies this, state
      ensures Valid() && Continues()
      ensures |old(moves)| <= at && Stepped(at, i, if remote then WakingRemote else WakingLocal)
      ensures WakeRegistered(states[at + 1], i)
      ensures remote && ToNotifiedWithoutSubmit(states[at].word).1 ==> i !in world.owners
      ensures remote && !ToNotifiedWithoutSubmit(states[at].word).1 ==> HandedOn(i, remote)
      ensures !remote ==> if ToNotified(states[at].word).1 then IsAt(i, Queued) else i !in world.owners
    {
      BeginWakeByVal(i, remote);
      if remote {
        at := WakeRemotely(i);
      } else {
        at := WakeLocally(i);
      }
    }

    method BeginWakeByVal(i: Id, remote: bool)
      requires Valid() && IsAt(i, IdleWaker) && !Borrowed(world, i) && (world.blocking ==> remote)
      modifies this`world, this`states, this`moves
      ensures Valid() && Continues() && IsAt(i, if remote then WakingRemote else WakingLocal)
    {
      Open();
      Did(TaskProtocol.WakeByVal(i, remote));
    }

    method WakeRemotely(i: Id) returns (ghost at: nat)
      requires Valid() && IsAt(i, WakingRemote)
      modifies this, state
      ensures Valid() && Continues()
      ensures |old(moves)| <= at && Stepped(at, i, WakingRemote) && WakeRegistered(states[at + 1], i)
      ensures ToNotifiedWithoutSubmit(states[at].word).1 ==> i !in world.owners
      ensures !ToNotifiedWithoutSubmit(states[at].word).1 ==> HandedOn(i, true)
    {
      var handled := NotifyRemote(i);
      at := |moves| - 1;
      if handled {
        DropReference(i);
      } else {
        SendOrDrop(i);
      }
    }

    /** Where a reference that has been handed on is at the end: queued as a Task on the owner thread; off it in the
        channel, or given back if that is closed. */
    ghost predicate HandedOn(born: Id, remote: bool)
      reads this
    {
      if !remote then IsAt(born, Queued)
      else if world.channelOpen then IsAt(born, InChannel)
      else born !in world.owners
    }

    /** A reference on its way to the owner thread ends in the channel, or is given back if that is closed. */
    method SendOrDrop(i: Id)
      requires Valid() && IsAt(i, Sending)
      modifies this, state
      ensures Valid() && Continues() && HandedOn(i, true)
    {
      var sent := SendWaker(i);
      if !sent {
        Open();
        ghost var k := |moves|;
        DropReference(i);
        Open();
        RunKeepsClosed(kind, states, moves, k, |moves|);
      }
    }

    method WakeLocally(i: Id) returns (ghost at: nat)
      requires Valid() && IsAt(i, WakingLocal)
      modifies this, state
      ensures Valid() && Continues()
      ensures |old(moves)| <= at && Stepped(at, i, WakingLocal) && WakeRegistered(states[at + 1], i)
      ensures if ToNotified(states[at].word).1 then IsAt(i, Queued) else i !in world.owners
    {
      var submit := NotifyLocal(i);
      at := |moves| - 1;
      if submit {
        Schedule(i);
      } else {
        DropReference(i);
      }
    }

    /** The owner thread has received the waker from its channel, and wakes it. */
    method WakeReceived(i: Id) returns (ghost at: nat)
      requires Valid() && IsAt(i, InChannel) && world.channelOpen
      modifies this, state
      ensures Valid() && Continues()
      ensures |old(moves)| <= at && Stepped(at, i, WakingLocal) && WakeRegistered(states[at + 1], i)
      ensures if ToNotified(states[at].word).1 then IsAt(i, Queued) else i !in world.owners
    {
      Open();
      Did(Receive(i));
      at := WakeLocally(i);
    }

    /** The `k`-th move was the transition of the call `c` of wake_by_ref. */
    ghost predicate Called(k: nat, c: nat, call: Call)
      reads this
    {
      k < |moves| && k < |states| && moves[k] == CallStep(c) && c in states[k].calls && states[k].calls[c] == call
    }

    /** The transition of a wake_by_ref; false: nothing is left to do, and the call is over. */
    method NotifyByRef(c: nat, l: Id, remote: bool) returns (more: bool)
      requires Valid() && c in world.calls && world.calls[c] == Call(l, if remote then Remote else Local)
      modifies this, state
      ensures Valid() && Continues()
      ensures |moves| > |old(moves)| && Called(|moves| - 1, c, Call(l, if remote then Remote else Local))
      ensures more == Asks(states[|moves| - 1].word, remote)
      ensures if more
              then c in world.calls && world.calls[c] == Call(l, if remote then SendIncrement else TaskIncrement)
              else c !in world.calls && (world.word.notified || world.word.complete)
      ensures more && !remote ==> world.word.notified
    {
      OthersDuringCall(c);
      if remote {
        var handled := state.TransitionToNotifiedWithoutSubmit();
        more := !handled;
      } else {
        more := state.TransitionToNotified();
      }
      CallFacts(world, c);
      Did(CallStep(c));
    }

    /** The `k`-th move was the ref_inc of the call `c`, for the new owner `born`. */
    ghost predicate Increments(k: nat, c: nat, born: Id)
      reads this
    {
      k < |moves| && k < |states| && moves[k] == CallInc(c, born) && born !in states[k].owners
    }

    /** The ref_inc of a wake_by_ref, for the new owner that it hands on. */
    method IncrementByRef(c: nat) returns (born: Id, abort: bool)
      requires Valid() && c in world.calls && (world.calls[c].pc.SendIncrement? || world.calls[c].pc.TaskIncrement?)
      modifies this, state
      ensures Continues() && |states| == |moves| + 1 && (abort ==> Aborted())
      ensures !abort ==> Valid() && IsAt(born, if old(world.calls[c].pc.SendIncrement?) then Sending else InHand)
      ensures |moves| > |old(moves)| && Increments(|moves| - 1, c, born)
    {
      OthersDuringCall(c);
      born := FreshId();
      var send := world.calls[c].pc.SendIncrement?;
      abort := IncrementFor(CallInc(c, born),
                            world.(calls := world.calls - {c},
                                   roles := if send then world.roles else WithDuty(world, Task(born))),
                            born, if send then Sending else InHand);
    }

    /** wake_by_ref, on the waker that `l` has. The `at`-th move is this call's transition; if it asked for more, the
        `made`-th is the ref_inc for a new owner, `born`, which ends as a queued Task, or off the owner thread in the
        channel (or has been given back, if that is closed). */
    method WakeByRef(l: Id, c: nat, remote: bool) returns (abort: bool, ghost at: nat, ghost born: Id, ghost made: nat)
      requires Valid() && CanLend(world, l) && c !in world.calls && (world.blocking ==> remote)
      modifies this, state
      ensures Continues() && |states| == |moves| + 1 && if abort then Aborted() else Valid()
      ensures |old(moves)| <= at && Called(at, c, Call(l, if remote then Remote else Local))
      ensures Asks(states[at].word, remote) || states[at + 1].word.notified || states[at + 1].word.complete
      ensures abort ==> Asks(states[at].word, remote)
      ensures Asks(states[at].word, remote) ==>
                at < made && Increments(made, c, born) && (!abort ==> HandedOn(born, remote))
    {
      BeginWakeByRef(l, c, remote);
      abort, at, born, made := CallThrough(l, c, remote);
    }

    /** The call of wake_by_ref itself. */
    method CallThrough(l: Id, c: nat, remote: bool)
        returns (abort: bool, ghost at: nat, ghost born: Id, ghost made: nat)
      requires Valid() && c in world.calls && world.calls[c] == Call(l, if remote then Remote else Local)
      modifies this, state
      ensures Continues() && |states| == |moves| + 1 && if abort then Aborted() else Valid()
      ensures |old(moves)| <= at && Called(at, c, Call(l, if remote then Remote else Local))
      ensures Asks(states[at].word, remote) || states[at + 1].word.notified || states[at + 1].word.complete
      ensures abort ==> Asks(states[at].word, remote)
      ensures Asks(states[at].word, remote) ==>
                at < made && Increments(made, c, born) && (!abort ==> HandedOn(born, remote))
    {
      var more := NotifyByRef(c, l, remote);
      at := |moves| - 1;
      abort, born, made := false, l, 0;
      if more {
        abort, born, made := HandOver(c, remote);
      }
    }

    method BeginWakeByRef(l: Id, c: nat, remote: bool)
      requires Valid() && CanLend(world, l) && c !in world.calls && (world.blocking ==> remote)
      modifies this`world, this`states, this`moves
      ensures Valid() && Continues() && c in world.calls && world.calls[c] == Call(l, if remote then Remote else Local)
    {
      Open();
      Did(TaskProtocol.WakeByRef(l, c, remote));
    }

    /** The ref_inc, and the handing on of the new reference. */
    method HandOver(c: nat, remote: bool) returns (abort: bool, ghost born: Id, ghost made: nat)
      requires Valid() && c in world.calls && world.calls[c].pc == if remote then SendIncrement else TaskIncrement
      modifies this, state
      ensures Continues() && |states| == |moves| + 1 && if abort then Aborted() else Valid()
      ensures |old(moves)| <= made && Increments(made, c, born) && (!abort ==> HandedOn(born, remote))
    {
      var newRef;
      newRef, abort := IncrementByRef(c);
      born, made := newRef, |moves| - 1;
      if !abort {
        HandOn(newRef, remote);
      }
    }

    /** The new owner goes into the channel of the owner thread, or into its run queue. */
    method HandOn(born: Id, remote: bool)
      requires Valid() && IsAt(born, if remote then Sending else InHand)
      modifies this, state
      ensures Valid() && Continues() && HandedOn(born, remote)
    {
      if remote {
        SendOrDrop(born);
      } else {
        Schedule(born);
      }
    }
  }
}
