/** What the protocol of TaskProtocol.dfy guarantees over every run, that is, in every interleaving. */
module TaskTheorems {
  import opened Prelude
  import opened TaskState
  import opened TaskProtocol
  import opened TaskInvariant

  predicate Moves(s: Cell, m: Move, t: Cell) {
    Enabled(s, m) && t == Apply(s, m)
  }

  ghost predicate MoveAt(states: seq<Cell>, moves: seq<Move>, k: nat) {
    k < |moves| && k + 1 < |states| && Moves(states[k], moves[k], states[k + 1])
  }

  /** The states of a run: from a new cell, by any moves that the program counters allow. */
  ghost predicate Run(blocking: bool, states: seq<Cell>, moves: seq<Move>) {
    && |states| == |moves| + 1
    && states[0] == New(blocking)
    && (forall k: nat {:trigger MoveAt(states, moves, k)} :: k < |moves| ==> MoveAt(states, moves, k))
  }

  lemma {:induction false} RunReachesInv(blocking: bool, states: seq<Cell>, moves: seq<Move>, k: nat, s: Cell)
    requires Run(blocking, states, moves) && k < |states| && s == states[k]
    ensures Inv(s)
  {
    if k == 0 {
      NewInv(blocking);
    } else {
      RunReachesInv(blocking, states, moves, k - 1, states[k - 1]);
      assert MoveAt(states, moves, k - 1);
      MoveKeepsInv(states[k - 1], moves[k - 1]);
    }
  }

  lemma RunKeepsInv(blocking: bool, states: seq<Cell>, moves: seq<Move>, k: nat)
    requires Run(blocking, states, moves) && k < |states|
    ensures Inv(states[k])
  {
    RunReachesInv(blocking, states, moves, k, states[k]);
  }

  lemma {:induction false} RunKeepsKind(blocking: bool, states: seq<Cell>, moves: seq<Move>, k: nat)
    requires Run(blocking, states, moves) && k < |states|
    ensures states[k].blocking == blocking
  {
    if k > 0 {
      RunKeepsKind(blocking, states, moves, k - 1);
      assert MoveAt(states, moves, k - 1);
      MoveChangesLife(states[k - 1], moves[k - 1]);
    }
  }

  /** The reference count is the number of owners; the cell lives exactly as long as somebody owns it, is freed at most
      once, and whatever moves while the memory may be gone is the deallocation itself: no step touches a freed cell and
      no assertion of the code fails. */
  lemma ReferencesAreOwners(blocking: bool, states: seq<Cell>, moves: seq<Move>, k: nat)
    requires Run(blocking, states, moves) && k < |states|
    ensures var s := states[k];
      && !s.fault
      && s.word.refs == |s.owners|
      && (s.life == Live <==> s.owners != map[])
      && s.log.frees <= 1 && (s.log.frees == 1 <==> s.life == Freed)
      && (s.life != Live ==> forall m :: Enabled(s, m) ==> m.CloseChannel? || (m.Free? && s.life == Freeing))
  {
    RunKeepsInv(blocking, states, moves, k);
    var s := states[k];
    if s.life != Live {
      forall m | Enabled(s, m)
        ensures m.CloseChannel? || m.Free?
      {
        if !m.CloseChannel? && !m.Free? {
          SomebodyThere(s, m);
        }
      }
    }
  }

  /** The deallocation becomes due in the ref_dec that takes the count from one to zero and in no other step, and only
      then is the cell freed. */
  lemma LastDropFrees(blocking: bool, states: seq<Cell>, moves: seq<Move>, k: nat)
    requires Run(blocking, states, moves) && k < |moves|
    ensures var s, m, t := states[k], moves[k], states[k + 1];
      && (s.word.refs > 0 && t.word.refs == 0 <==> s.life == Live && t.life == Freeing)
      && (s.life == Live && t.life == Freeing ==>
            m.Step? && m.i in s.owners && s.owners[m.i] == Dropping && s.word.refs == 1)
      && (s.life != Freed && t.life == Freed ==> s.life == Freeing && m == Free)
  {
    ReferencesAreOwners(blocking, states, moves, k);
    ReferencesAreOwners(blocking, states, moves, k + 1);
    assert MoveAt(states, moves, k);
    MoveChangesLife(states[k], moves[k]);
  }

  /** The task is never run by two at a time, and never again once complete. */
  lemma OneRunner(blocking: bool, states: seq<Cell>, moves: seq<Move>, k: nat, i: Id, j: Id)
    requires Run(blocking, states, moves) && k < |states|
    requires i in states[k].owners && Runs(states[k].owners[i])
    ensures states[k].word.running && !states[k].word.complete
    ensures j in states[k].owners && Runs(states[k].owners[j]) ==> j == i
  {
    RunKeepsInv(blocking, states, moves, k);
  }

  ghost predicate CarriesDuty(s: Cell, d: Duty) {
    match d
    case Nobody => false
    case Task(i) => i in s.owners && HasDuty(s.owners[i])
    case ByCall(c) => c in s.calls && s.calls[c].pc.TaskIncrement?
    case Abandoned => s.roles.duty == Abandoned
  }

  /** The task is idle and notified exactly while one Task is queued or about to be (or was thrown away with its queue);
      there are never two. */
  lemma NotifiedIsOneTask(blocking: bool, states: seq<Cell>, moves: seq<Move>, k: nat)
    requires Run(blocking, states, moves) && k < |states|
    ensures var s := states[k];
      && (s.word.IsIdle() && s.word.notified <==> exists d :: CarriesDuty(s, d))
      && (forall d, e :: CarriesDuty(s, d) && CarriesDuty(s, e) ==> d == e)
  {
    RunKeepsInv(blocking, states, moves, k);
    var s := states[k];
    if s.word.IsIdle() && s.word.notified {
      assert CarriesDuty(s, s.roles.duty);
    }
  }

  /** A task that was woken since its last run began, and is not complete, will run again: it is being run and the
      runner will see NOTIFIED, or a Task for it is queued or about to be, or the wake is on its way to the owner. */
  lemma NoLostWake(blocking: bool, states: seq<Cell>, moves: seq<Move>, k: nat)
    requires Run(blocking, states, moves) && k < |states|
    requires var s := states[k]; s.log.wakePending && !s.word.complete && s.channelOpen && s.roles.duty != Abandoned
    ensures var s := states[k];
      || (s.word.notified && exists i :: i in s.owners && Runs(s.owners[i]))
      || (exists i :: i in s.owners && (HasDuty(s.owners[i]) || InTransit(s.owners[i])))
      || (exists c :: c in s.calls && (s.calls[c].pc.TaskIncrement? || s.calls[c].pc.SendIncrement?))
  {
    RunKeepsInv(blocking, states, moves, k);
    var s := states[k];
    if s.word.notified {
      if s.word.running {
        assert Runs(s.owners[s.roles.runner.value]);
      } else if s.roles.duty.Task? {
        assert HasDuty(s.owners[s.roles.duty.id]);
      } else {
        assert s.calls[s.roles.duty.call].pc.TaskIncrement?;
      }
    }
  }

  /** A handle whose last poll was Pending has its waker stored; once the task is complete that waker has been woken,
      unless the completing thread is just about to. */
  lemma PendingJoinIsWoken(blocking: bool, states: seq<Cell>, moves: seq<Move>, k: nat, i: Id, w: WakerId)
    requires Run(blocking, states, moves) && k < |states|
    requires i in states[k].owners && states[k].owners[i] == Handle(Resting(Some(w)))
    ensures var s := states[k];
      && s.word.joinInterest && s.word.joinWaker && s.slot == Some(w)
      && (s.word.complete ==> s.log.woken == Some(w) || exists j :: j in s.owners && s.owners[j] == WakingJoin)
  {
    RunKeepsInv(blocking, states, moves, k);
    var s := states[k];
    if s.word.complete && s.log.woken != Some(w) {
      assert HandleOf(s) == Some(Resting(Some(w)));
      assert s.owners[s.roles.completer.value] == WakingJoin;
    }
  }

  predicate UsesSlot(o: Owner) {
    o.WakingJoin? || (o.Handle? && (o.pc.Comparing? || o.pc.Writing? || o.pc.Clearing?))
  }

  predicate WritesSlot(o: Owner) { o.Handle? && (o.pc.Writing? || o.pc.Clearing?) }

  predicate UsesStage(o: Owner) {
    o.Polling? || o.Storing? || o.Disposing? || (o.Handle? && (o.pc.Taking? || o.pc.DroppingOutput?))
  }

  /** Nobody writes the waker slot while another uses it, and the stage has one user at a time. */
  lemma NoRaceOnFields(blocking: bool, states: seq<Cell>, moves: seq<Move>, k: nat, i: Id, j: Id)
    requires Run(blocking, states, moves) && k < |states|
    requires i in states[k].owners && j in states[k].owners && i != j
    ensures var s := states[k];
      && !(WritesSlot(s.owners[i]) && UsesSlot(s.owners[j]))
      && !(UsesStage(s.owners[i]) && UsesStage(s.owners[j]))
  {
    RunKeepsInv(blocking, states, moves, k);
    var s := states[k];
    assert s.owners[i].Handle? ==> HandleOf(s) == Some(s.owners[i].pc);
    assert s.owners[j].Handle? ==> HandleOf(s) == Some(s.owners[j].pc);
    assert Completes(s.owners[i]) ==> CompleterOf(s) == Some(s.owners[i]);
    assert Completes(s.owners[j]) ==> CompleterOf(s) == Some(s.owners[j]);
  }

  /** The output is stored at most once, and disposed of at most once; exactly once before the memory goes. What is in
      the stage, and what was taken or dropped, is what was stored. */
  lemma OutputOnce(blocking: bool, states: seq<Cell>, moves: seq<Move>, k: nat)
    requires Run(blocking, states, moves) && k < |states|
    ensures var s := states[k];
      && |s.log.disposals| <= |s.log.outputs| <= 1
      && (s.stage.Finished? ==> s.log.outputs == [s.stage.out])
      && (s.log.disposals != [] ==> s.log.outputs == [s.log.disposals[0].out])
      && (s.word.complete <==> s.log.completions == 1)
      && (s.life != Live ==> |s.log.disposals| == |s.log.outputs|)
  {
    RunKeepsInv(blocking, states, moves, k);
  }

  /** A BlockingTask completes exactly once, by being run or by being dropped, and is never passed to its scheduler. */
  lemma BlockingCompletesOnce(states: seq<Cell>, moves: seq<Move>, k: nat)
    requires Run(true, states, moves) && k < |states|
    ensures var s := states[k];
      && s.log.completions <= 1
      && (forall i :: i in s.owners ==> s.owners[i] != InHand)
      && (s.log.completions == 0 ==> exists i :: i in s.owners && (HasDuty(s.owners[i]) || Runs(s.owners[i])))
      && (s.life != Live ==> s.log.completions == 1 && |s.log.outputs| == 1 && |s.log.disposals| == 1)
  {
    RunKeepsInv(true, states, moves, k);
    RunKeepsKind(true, states, moves, k);
    var s := states[k];
    if s.log.completions == 0 {
      if s.roles.runner.Some? {
        assert Runs(s.owners[s.roles.runner.value]);
      } else {
        assert HasDuty(s.owners[s.roles.duty.id]);
      }
    }
  }

  // ----- what never changes back -----

  /** `t` may come after `s`: completion, lost interest, the outputs and what became of them, and the wake of the
      joining task are final. */
  predicate Later(s: Cell, t: Cell) {
    GoesOn(s.word, s.log, t.word, t.log)
  }

  predicate GoesOn(word: Snapshot, log: Log, word': Snapshot, log': Log) {
    && (word.complete ==> word'.complete)
    && (!word.joinInterest ==> !word'.joinInterest)
    && log.outputs <= log'.outputs && log.disposals <= log'.disposals
    && (log.woken.Some? ==> log'.woken == log.woken)
  }

  lemma HandleGoesOn(pc: JoinPc, e: Effect)
    ensures var f := HandleEffect(pc, e); GoesOn(e.word, e.log, f.word, f.log)
  {
  }

  lemma TaskGoesOn(i: Id, o: Owner, blocking: bool, e: Effect)
    requires (o.Completing? ==> !e.word.complete) && (o.WakingJoin? ==> e.log.woken.None?)
    ensures var f := TaskEffect(i, o, blocking, e); GoesOn(e.word, e.log, f.word, f.log)
  {
  }

  lemma TaskStepIsLater(s: Cell, i: Id)
    requires Inv(s) && TaskStep(s, i)
    ensures Later(s, StepTask(s, i))
  {
    var o := s.owners[i];
    assert Runs(o) ==> RunnerOf(s) == Some(o);
    assert Completes(o) ==> CompleterOf(s) == Some(o);
    TaskGoesOn(i, o, s.blocking, Before(s, o));
  }

  lemma HandleStepIsLater(s: Cell, i: Id)
    requires i in s.owners && s.owners[i].Handle?
    ensures Later(s, StepHandle(s, i))
  {
    HandleGoesOn(s.owners[i].pc, Before(s, s.owners[i]));
  }

  lemma StepIsLater(s: Cell, i: Id)
    requires Inv(s) && i in s.owners && MovesAlone(s.owners[i])
    ensures Later(s, StepOwner(s, i))
  {
    if TaskStep(s, i) {
      TaskStepIsLater(s, i);
    } else if s.owners[i].Handle? {
      HandleStepIsLater(s, i);
    }
  }

  lemma MoveIsLater(s: Cell, m: Move)
    requires Inv(s) && Enabled(s, m)
    ensures Later(s, Apply(s, m))
  {
    if m.Step? {
      StepIsLater(s, m.i);
    }
  }

  lemma {:induction false} RunGoesOn(blocking: bool, states: seq<Cell>, moves: seq<Move>, j: nat, k: nat)
    requires Run(blocking, states, moves) && j <= k < |states|
    ensures Later(states[j], states[k])
  {
    if j < k {
      RunGoesOn(blocking, states, moves, j, k - 1);
      RunKeepsInv(blocking, states, moves, k - 1);
      assert MoveAt(states, moves, k - 1);
      MoveIsLater(states[k - 1], moves[k - 1]);
    }
  }

  // ----- what a BlockingTask hands to its JoinHandle -----

  /** The task's output is Canceled, or is going to be. */
  predicate Canceling(s: Cell) {
    || s.log.outputs == [Canceled]
    || RunnerOf(s) == Some(Storing(Canceled))
    || (s.roles.duty.Task? && s.roles.duty.id in s.owners && s.owners[s.roles.duty.id] == Starting(true))
  }

  lemma TaskStepKeepsCanceling(s: Cell, i: Id)
    requires Inv(s) && s.blocking && TaskStep(s, i)
    ensures Canceling(StepTask(s, i)) == Canceling(s)
  {
    var o := s.owners[i];
    assert Runs(o) ==> RunnerOf(s) == Some(o);
    assert HasDuty(o) <==> s.roles.duty == Task(i);
    assert o.Storing? ==> s.log.outputs + [o.out] == [o.out];
  }

  lemma HandleStepKeepsCanceling(s: Cell, i: Id)
    requires Inv(s) && i in s.owners && s.owners[i].Handle? && !s.owners[i].pc.FastDrop?
    ensures Canceling(StepHandle(s, i)) == Canceling(s)
  {
    HandleEffectIsSmall(s.owners[i].pc, Before(s, s.owners[i]));
    HandleMovesAlone(s, i);
  }

  /** A step that gives back a reference, or fails to in drop_join_handle_fast. */
  lemma DropKeepsCanceling(s: Cell, i: Id)
    requires Inv(s) && s.blocking && i in s.owners && (s.owners[i].Dropping? || s.owners[i] == Handle(FastDrop))
    ensures Canceling(StepOwner(s, i)) == Canceling(s)
  {
    assert !Runs(s.owners[i]) && !HasDuty(s.owners[i]);
  }

  lemma StepKeepsCanceling(s: Cell, i: Id)
    requires Inv(s) && s.blocking && i in s.owners && MovesAlone(s.owners[i])
    ensures Canceling(StepOwner(s, i)) == Canceling(s)
  {
    if TaskStep(s, i) {
      TaskStepKeepsCanceling(s, i);
    } else if s.owners[i].Dropping? || s.owners[i] == Handle(FastDrop) {
      DropKeepsCanceling(s, i);
    } else {
      HandleStepKeepsCanceling(s, i);
    }
  }

  lemma OnlyDiscardCancels(s: Cell, m: Move)
    requires Inv(s) && s.blocking && Enabled(s, m)
    ensures Canceling(Apply(s, m)) <==> Canceling(s) || m.Discard?
  {
    if m.Step? {
      StepKeepsCanceling(s, m.i);
    }
  }

  lemma {:induction false} CancelingMeansDiscarded(states: seq<Cell>, moves: seq<Move>, k: nat)
    requires Run(true, states, moves) && k < |states|
    ensures Canceling(states[k]) <==> exists j: nat :: j < k && moves[j].Discard?
  {
    if k > 0 {
      CancelingMeansDiscarded(states, moves, k - 1);
      RunKeepsInv(true, states, moves, k - 1);
      RunKeepsKind(true, states, moves, k - 1);
      assert MoveAt(states, moves, k - 1);
      OnlyDiscardCancels(states[k - 1], moves[k - 1]);
    }
  }

  /** The output of a BlockingTask is Canceled if and only if it was dropped without being run. */
  lemma BlockingOutput(states: seq<Cell>, moves: seq<Move>, k: nat)
    requires Run(true, states, moves) && k < |states| && states[k].log.outputs != []
    ensures states[k].log.outputs == [Canceled] <==> exists j: nat :: j < k && moves[j].Discard?
  {
    CancelingMeansDiscarded(states, moves, k);
    RunKeepsInv(true, states, moves, k);
  }
}
