/** Every move of TaskProtocol keeps its invariant. */
module TaskInvariant {
  import opened Prelude
  import opened TaskState
  import opened TaskProtocol

  // ----- what a change to one owner does to the quantified parts -----

  predicate RoleMoves(before: Option<Id>, after: Option<Id>, i: Id, holds: bool) {
    && (holds <==> after == Some(i))
    && (after == before || (before in {None, Some(i)} && after in {None, Some(i)}))
  }

  predicate DutyMoves(before: Duty, after: Duty, i: Id, holds: bool) {
    && (holds <==> after == Task(i))
    && (after == before || (before in {Nobody, Task(i)} && after in {Nobody, Task(i), Abandoned}))
  }

  predicate SameWorld(s: Cell, t: Cell) {
    && t.calls == s.calls
    && t.word.refs == s.word.refs && t.life == s.life && t.log.frees == s.log.frees && t.blocking == s.blocking
    && (t.channelOpen == s.channelOpen)
  }

  lemma Reassigned(s: Cell, t: Cell, i: Id, o: Owner)
    requires References(s) && Roles(s) && i in s.owners
    requires SameWorld(s, t) && t.owners == s.owners[i := o]
    requires CanLend(s, i) ==> !Borrowed(s, i)
    requires RoleMoves(s.roles.runner, t.roles.runner, i, Runs(o))
    requires RoleMoves(s.roles.handle, t.roles.handle, i, o.Handle?)
    requires RoleMoves(s.roles.completer, t.roles.completer, i, Completes(o))
    requires DutyMoves(s.roles.duty, t.roles.duty, i, HasDuty(o))
    ensures References(t) && Roles(t)
  {
    ReassignedReferences(s, t, i, o);
    ReassignedRoles(s, t, i, o);
  }

  lemma ReassignedReferences(s: Cell, t: Cell, i: Id, o: Owner)
    requires References(s) && i in s.owners
    requires SameWorld(s, t) && t.owners == s.owners[i := o]
    requires CanLend(s, i) ==> !Borrowed(s, i)
    ensures References(t)
  {
  }

  lemma ReassignedRoles(s: Cell, t: Cell, i: Id, o: Owner)
    requires Roles(s) && i in s.owners
    requires t.calls == s.calls && t.owners == s.owners[i := o]
    requires RoleMoves(s.roles.runner, t.roles.runner, i, Runs(o))
    requires RoleMoves(s.roles.handle, t.roles.handle, i, o.Handle?)
    requires RoleMoves(s.roles.completer, t.roles.completer, i, Completes(o))
    requires DutyMoves(s.roles.duty, t.roles.duty, i, HasDuty(o))
    ensures Roles(t)
  {
  }

  /** `t` is woken no further than `s` says, and what carried the wake in `s` still does. */
  lemma WakeFollows(s: Cell, t: Cell, i: Id, o: Owner)
    requires NoWakeLost(s) && i in s.owners
    requires t.calls == s.calls && t.owners == s.owners[i := o] && t.channelOpen == s.channelOpen
    requires t.log.wakePending ==> s.log.wakePending || t.word.notified || InTransit(o) || t.word.complete
    requires s.word.notified && t.log.wakePending ==> t.word.notified || t.word.complete
    requires InTransit(s.owners[i]) && s.channelOpen ==> InTransit(o) || t.word.notified || t.word.complete
    requires s.word.complete ==> t.word.complete
    ensures NoWakeLost(t)
  {
    assert i in t.owners && t.owners[i] == o;
    if j :| j in s.owners && InTransit(s.owners[j]) {
      assert j in t.owners && t.owners[j] == if j == i then o else s.owners[j];
    }
  }

  lemma BlockingFollows(s: Cell, t: Cell, i: Id, o: Owner)
    requires BlockingShape(s) && i in s.owners && t.blocking == s.blocking
    requires t.calls == s.calls && t.owners == s.owners[i := o]
    requires s.blocking ==>
              !o.InHand? && !o.Rescheduling? && !o.Idling? && !o.IdleWaker? && !InTransit(o) && !o.WakingRemote?
    requires s.blocking ==>
              !t.roles.duty.Abandoned? && (t.word.complete || t.roles.duty != Nobody || t.roles.runner.Some?)
    ensures BlockingShape(t)
  {
  }

  // ----- the steps of an owner that keeps its reference -----

  predicate TaskStep(s: Cell, i: Id) {
    i in s.owners && (s.owners[i].InHand? || s.owners[i].Starting? || s.owners[i].Storing? || s.owners[i].Idling?
                      || s.owners[i].Completing? || Completes(s.owners[i]))
  }

  lemma TaskKeepsCore(s: Cell, i: Id)
    requires Inv(s) && TaskStep(s, i)
    ensures var t := StepTask(s, i); !t.fault && Lifecycle(t) && StageAgrees(t)
  {
  }

  lemma TaskKeepsJoin(s: Cell, i: Id)
    requires Inv(s) && TaskStep(s, i)
    ensures JoinAgrees(StepTask(s, i))
  {
  }

  lemma TaskKeepsRoles(s: Cell, i: Id)
    requires Inv(s) && TaskStep(s, i)
    ensures var t := StepTask(s, i); References(t) && Roles(t)
  {
    var t := StepTask(s, i);
    Reassigned(s, t, i, t.owners[i]);
  }

  lemma TaskKeepsWake(s: Cell, i: Id)
    requires Inv(s) && TaskStep(s, i)
    ensures var t := StepTask(s, i); NoWakeLost(t) && BlockingShape(t)
  {
    var t := StepTask(s, i);
    WakeFollows(s, t, i, t.owners[i]);
    BlockingFollows(s, t, i, t.owners[i]);
  }

  predicate HandleStep(s: Cell, i: Id) {
    i in s.owners && s.owners[i].Handle? && !s.owners[i].pc.FastDrop?
  }

  /** The quantifier-free part of the invariant. */
  ghost predicate Core(s: Cell) {
    !s.fault && s.life == Live && Lifecycle(s) && StageAgrees(s) && JoinAgrees(s)
  }

  ghost predicate HandleAlone(s: Cell, t: Cell, i: Id) {
    && HandleStep(s, i) && t == StepHandle(s, i) && i in t.owners
    && HandleOf(s) == Some(s.owners[i].pc)
    && HandleOf(t) == (if t.owners[i].Handle? then Some(t.owners[i].pc) else None)
    && RunnerOf(t) == RunnerOf(s) && CompleterOf(t) == CompleterOf(s)
  }

  lemma HandleEffectIsSmall(pc: JoinPc, e: Effect)
    requires !pc.FastDrop? && e.next.Handle?
    ensures var f := HandleEffect(pc, e);
      && (f.next.Handle? || f.next.Dropping?)
      && f.roles == e.roles.(handle := if f.next.Handle? then e.roles.handle else None)
      && f.log.wakePending == e.log.wakePending && f.log.frees == e.log.frees
      && f.word.refs == e.word.refs && f.word.complete == e.word.complete && f.word.notified == e.word.notified
  {
  }

  lemma HandleMovesAlone(s: Cell, i: Id)
    requires References(s) && Roles(s) && HandleStep(s, i)
    ensures s.life == Live && HandleAlone(s, StepHandle(s, i), i)
  {
    HandleEffectIsSmall(s.owners[i].pc, Before(s, s.owners[i]));
  }

  lemma HandleKeepsCore(s: Cell, t: Cell, i: Id)
    requires Core(s) && HandleAlone(s, t, i)
    ensures !t.fault && Lifecycle(t) && StageAgrees(t)
  {
    match s.owners[i].pc
    case Loading(_) =>
    case Comparing(_) =>
    case Unsetting(_) =>
    case Writing(_) =>
    case Setting(_) =>
    case Clearing =>
    case Taking =>
    case SlowDrop =>
    case _ =>
  }

  lemma HandleKeepsJoin(s: Cell, t: Cell, i: Id)
    requires Core(s) && HandleAlone(s, t, i)
    ensures JoinAgrees(t)
  {
    match s.owners[i].pc
    case Loading(_) =>
    case Comparing(_) =>
    case Unsetting(_) =>
    case Writing(_) =>
    case Setting(_) =>
    case Clearing =>
    case Taking =>
    case SlowDrop =>
    case _ =>
  }

  lemma HandleKeepsRest(s: Cell, i: Id)
    requires Inv(s) && HandleStep(s, i)
    ensures var t := StepHandle(s, i); References(t) && Roles(t) && NoWakeLost(t) && BlockingShape(t)
  {
    var t := StepHandle(s, i);
    var o := t.owners[i];
    HandleEffectIsSmall(s.owners[i].pc, Before(s, s.owners[i]));
    Reassigned(s, t, i, o);
    WakeFollows(s, t, i, o);
    BlockingFollows(s, t, i, o);
  }

  predicate WakerStep(s: Cell, i: Id) {
    i in s.owners && (s.owners[i].WakingRemote? || s.owners[i].WakingLocal? || s.owners[i].Sending?)
  }

  lemma WakerKeepsCore(s: Cell, i: Id)
    requires Inv(s) && WakerStep(s, i)
    ensures var t := StepWaker(s, i); !t.fault && Lifecycle(t) && StageAgrees(t) && JoinAgrees(t)
  {
    var t := StepWaker(s, i);
    assert RunnerOf(t) == RunnerOf(s) && CompleterOf(t) == CompleterOf(s) && HandleOf(t) == HandleOf(s);
  }

  lemma WakerKeepsRest(s: Cell, i: Id)
    requires Inv(s) && WakerStep(s, i)
    ensures var t := StepWaker(s, i); References(t) && Roles(t) && NoWakeLost(t) && BlockingShape(t)
  {
    var t := StepWaker(s, i);
    Reassigned(s, t, i, t.owners[i]);
    WakeFollows(s, t, i, t.owners[i]);
    BlockingFollows(s, t, i, t.owners[i]);
  }

  // ----- giving a reference back -----

  /** Owner `i` is gone, with the role it had. */
  ghost predicate Gone(s: Cell, t: Cell, i: Id) {
    && i in s.owners && t.owners == s.owners - {i} && t.calls == s.calls
    && t.word == s.word.(refs := t.word.refs, joinInterest := t.word.joinInterest) && t.word.refs + 1 == s.word.refs
    && t.life == (if t.word.refs == 0 then Freeing else s.life)
    && t.blocking == s.blocking && t.channelOpen == s.channelOpen
    && t.roles == s.roles.(handle := if s.roles.handle == Some(i) then None else s.roles.handle)
    && t.log == s.log
  }

  lemma GoneKeepsReferences(s: Cell, t: Cell, i: Id)
    requires References(s) && Gone(s, t, i) && (s.owners[i].Dropping? || s.owners[i].Handle?)
    ensures References(t) && s.life == Live
  {
  }

  lemma GoneKeepsRoles(s: Cell, t: Cell, i: Id)
    requires Roles(s) && Gone(s, t, i) && (s.owners[i].Dropping? || s.owners[i].Handle?)
    ensures Roles(t)
  {
  }

  lemma GoneKeepsWake(s: Cell, t: Cell, i: Id)
    requires NoWakeLost(s) && BlockingShape(s) && Gone(s, t, i)
    requires s.owners[i].Dropping? || s.owners[i].Handle?
    ensures NoWakeLost(t) && BlockingShape(t)
  {
    if j :| j in s.owners && InTransit(s.owners[j]) {
      assert j in t.owners && t.owners[j] == s.owners[j];
    }
  }

  lemma DropKeepsInv(s: Cell, i: Id, t: Cell)
    requires Inv(s) && i in s.owners && s.owners[i].Dropping? && t == DropReference(s, i)
    ensures Inv(t)
  {
    GoneKeepsReferences(s, t, i);
    GoneKeepsRoles(s, t, i);
    GoneKeepsWake(s, t, i);
    assert RunnerOf(t) == RunnerOf(s) && CompleterOf(t) == CompleterOf(s) && HandleOf(t) == HandleOf(s);
  }

  lemma FastDropFreesHandle(s: Cell, i: Id)
    requires Inv(s) && i in s.owners && s.owners[i] == Handle(FastDrop) && s.word == INITIAL_SNAPSHOT
    ensures Inv(FastDropped(s, i))
  {
  }

  // ----- taking a reference -----

  lemma BornKeepsRoles(s: Cell, t: Cell, born: Id, o: Owner)
    requires References(s) && Roles(s) && born !in s.owners && !Runs(o) && !o.Handle? && !Completes(o)
    requires t.owners == s.owners[born := o] && t.calls.Keys <= s.calls.Keys
    requires (forall c :: c in t.calls ==> t.calls[c] == s.calls[c])
    requires |s.owners| > 0 && t.word.refs == s.word.refs + 1 && t.life == s.life && t.log == s.log
    requires t.blocking == s.blocking
    requires t.roles == s.roles.(duty := t.roles.duty)
    requires if HasDuty(o)
             then t.roles.duty == Task(born)
                  && (s.roles.duty == Nobody || (s.roles.duty.ByCall? && s.roles.duty.call !in t.calls))
             else t.roles.duty == s.roles.duty && (s.roles.duty.ByCall? ==> s.roles.duty.call in t.calls)
    ensures References(t) && Roles(t)
  {
  }

  lemma BornKeepsWake(s: Cell, t: Cell, born: Id, o: Owner)
    requires NoWakeLost(s) && born !in s.owners && t.owners == s.owners[born := o]
    requires t.word == s.word.(refs := t.word.refs) && t.log == s.log && t.channelOpen == s.channelOpen
    requires t.calls.Keys <= s.calls.Keys
    requires forall c :: c in t.calls ==> t.calls[c] == s.calls[c]
    requires forall c :: c in s.calls && c !in t.calls && s.calls[c].pc.SendIncrement? ==> InTransit(o)
    ensures NoWakeLost(t)
  {
    assert born in t.owners && t.owners[born] == o;
    if j :| j in s.owners && InTransit(s.owners[j]) {
      assert j in t.owners && t.owners[j] == s.owners[j];
    } else if c :| c in s.calls && s.calls[c].pc.SendIncrement? {
      assert c in t.calls ==> t.calls[c] == s.calls[c];
    }
  }

  lemma BornKeepsCore(s: Cell, t: Cell, born: Id, o: Owner)
    requires Inv(s) && born !in s.owners && t.owners == s.owners[born := o]
    requires t.word == s.word.(refs := t.word.refs) && t.log == s.log && t.stage == s.stage && t.slot == s.slot
    requires t.roles == s.roles.(duty := t.roles.duty) && (t.roles.duty == Nobody <==> s.roles.duty == Nobody)
    ensures Lifecycle(t) && StageAgrees(t) && JoinAgrees(t)
  {
  }

  lemma AbortKeepsInv(s: Cell)
    requires Inv(s) && s.life == Live
    ensures Inv(s.(fault := Check(s, true), aborted := true))
  {
  }

  lemma CloneKeepsInv(s: Cell, born: Id)
    requires Inv(s) && s.life == Live && born !in s.owners && !s.blocking
    ensures Inv(AddOwner(s, s, born, IdleWaker))
  {
    var t := AddOwner(s, s, born, IdleWaker);
    if !RefIncAborts(s.word) {
      BornKeepsRoles(s, t, born, IdleWaker);
      BornKeepsWake(s, t, born, IdleWaker);
      BornKeepsCore(s, t, born, IdleWaker);
    }
  }

  lemma SendIncKeepsInv(s: Cell, c: nat, born: Id)
    requires Inv(s) && s.life == Live && born !in s.owners && c in s.calls && s.calls[c].pc.SendIncrement?
    ensures Inv(IncrementForCall(s, c, born))
  {
    var t := IncrementForCall(s, c, born);
    if RefIncAborts(s.word) {
      AbortKeepsInv(s);
    } else {
      BornKeepsRoles(s, t, born, Sending);
      BornKeepsWake(s, t, born, Sending);
      BornKeepsCore(s, t, born, Sending);
    }
  }

  lemma TaskIncKeepsInv(s: Cell, c: nat, born: Id)
    requires Inv(s) && s.life == Live && born !in s.owners && c in s.calls && s.calls[c].pc.TaskIncrement?
    ensures Inv(IncrementForCall(s, c, born))
  {
    var t := IncrementForCall(s, c, born);
    if RefIncAborts(s.word) {
      AbortKeepsInv(s);
    } else {
      BornKeepsRoles(s, t, born, InHand);
      BornKeepsWake(s, t, born, InHand);
      BornKeepsCore(s, t, born, InHand);
    }
  }

  lemma HandOverDuty(s: Cell, i: Id)
    requires Inv(s) && i in s.owners && s.owners[i].Rescheduling?
    ensures var mid := At(s, i, Dropping).(roles := WithDuty(s, Nobody));
      References(mid) && Roles(mid) && NoWakeLost(mid)
  {
    var mid := At(s, i, Dropping).(roles := WithDuty(s, Nobody));
    Reassigned(s, mid, i, Dropping);
    WakeFollows(s, mid, i, Dropping);
  }

  lemma StepIncKeepsCore(s: Cell, i: Id, born: Id, t: Cell)
    requires Inv(s) && i in s.owners && s.owners[i].Rescheduling? && born !in s.owners && !RefIncAborts(s.word)
    requires t == AddOwner(s, At(s, i, Dropping).(roles := WithDuty(s, Task(born))), born, InHand)
    ensures !t.fault && Lifecycle(t) && StageAgrees(t) && JoinAgrees(t) && BlockingShape(t)
  {
    assert RunnerOf(t) == RunnerOf(s) && CompleterOf(t) == CompleterOf(s) && HandleOf(t) == HandleOf(s);
  }

  lemma StepIncKeepsInv(s: Cell, i: Id, born: Id, t: Cell)
    requires Inv(s) && i in s.owners && s.owners[i].Rescheduling? && born !in s.owners
    requires t == AddOwner(s, At(s, i, Dropping).(roles := WithDuty(s, Task(born))), born, InHand)
    ensures Inv(t)
  {
    if RefIncAborts(s.word) {
      AbortKeepsInv(s);
    } else {
      var mid := At(s, i, Dropping).(roles := WithDuty(s, Nobody));
      HandOverDuty(s, i);
      BornKeepsRoles(mid, t, born, InHand);
      BornKeepsWake(mid, t, born, InHand);
      StepIncKeepsCore(s, i, born, t);
    }
  }

  // ----- the moves of user code, the queue and the channel -----

  /** A move that only changes the program counter of an owner in no particular role. */
  lemma RelabelKeepsInv(s: Cell, i: Id, o: Owner)
    requires Inv(s) && i in s.owners && (CanLend(s, i) ==> !Borrowed(s, i))
    requires !Runs(s.owners[i]) && !s.owners[i].Handle? && !Completes(s.owners[i])
    requires !Runs(o) && !o.Handle? && !Completes(o) && (HasDuty(o) <==> HasDuty(s.owners[i]))
    requires InTransit(s.owners[i]) && s.channelOpen ==> InTransit(o)
    requires s.blocking ==> o.Starting?
    ensures Inv(At(s, i, o))
  {
    var t := At(s, i, o);
    Reassigned(s, t, i, o);
    WakeFollows(s, t, i, o);
    BlockingFollows(s, t, i, o);
    assert RunnerOf(t) == RunnerOf(s) && CompleterOf(t) == CompleterOf(s) && HandleOf(t) == HandleOf(s);
  }

  lemma DiscardKeepsInv(s: Cell, i: Id)
    requires Inv(s) && i in s.owners && s.owners[i].Queued?
    ensures Inv(Discarded(s, i))
  {
    var t := Discarded(s, i);
    Reassigned(s, t, i, t.owners[i]);
    WakeFollows(s, t, i, t.owners[i]);
    BlockingFollows(s, t, i, t.owners[i]);
    assert RunnerOf(t) == RunnerOf(s) && CompleterOf(t) == CompleterOf(s) && HandleOf(t) == HandleOf(s);
  }

  lemma PollEndsKeepsInv(s: Cell, i: Id, ready: Option<Output>)
    requires Inv(s) && Enabled(s, PollEnds(i, ready))
    ensures Inv(EndPoll(s, i, ready))
  {
    var t := EndPoll(s, i, ready);
    var o := t.owners[i];
    Reassigned(s, t, i, o);
    WakeFollows(s, t, i, o);
    BlockingFollows(s, t, i, o);
    assert RunnerOf(t) == Some(o) && CompleterOf(t) == CompleterOf(s) && HandleOf(t) == HandleOf(s);
  }

  lemma JoinCallKeepsInv(s: Cell, i: Id, pc: JoinPc)
    requires Inv(s) && i in s.owners && s.owners[i].Handle?
    requires match pc
             case Loading(_) => s.owners[i].pc.Resting?
             case FastDrop => s.owners[i].pc.Resting? || s.owners[i].pc.Joined?
             case SlowDrop => s.owners[i].pc.FastDrop?
             case _ => false
    ensures Inv(AtPc(s, i, pc))
  {
    var t := AtPc(s, i, pc);
    Reassigned(s, t, i, Handle(pc));
    WakeFollows(s, t, i, Handle(pc));
    BlockingFollows(s, t, i, Handle(pc));
    assert RunnerOf(t) == RunnerOf(s) && CompleterOf(t) == CompleterOf(s) && HandleOf(t) == Some(pc);
  }

  lemma FastDropKeepsInv(s: Cell, i: Id, t: Cell)
    requires Inv(s) && i in s.owners && s.owners[i] == Handle(FastDrop) && t == FastDropped(s, i)
    ensures Inv(t)
  {
    if s.word == INITIAL_SNAPSHOT {
      FastDropFreesHandle(s, i);
    } else {
      JoinCallKeepsInv(s, i, SlowDrop);
    }
  }

  /** A move that leaves the owners alone and at most notifies the task. */
  lemma CallKeepsCore(s: Cell, t: Cell)
    requires Inv(s) && t.owners == s.owners && t.stage == s.stage && t.slot == s.slot
    requires t.word == s.word.(notified := t.word.notified) && t.log == s.log.(wakePending := t.log.wakePending)
    requires t.roles == s.roles.(duty := t.roles.duty)
    requires t.word.notified == s.word.notified ==> t.roles.duty == s.roles.duty
    requires t.word.notified != s.word.notified ==>
               t.word.notified && (if s.word.IsIdle() then t.roles.duty != Nobody else t.roles.duty == s.roles.duty)
    ensures Lifecycle(t) && StageAgrees(t) && JoinAgrees(t)
  {
    assert RunnerOf(t) == RunnerOf(s) && CompleterOf(t) == CompleterOf(s) && HandleOf(t) == HandleOf(s);
  }

  /** One call in progress has changed, begun or ended. */
  ghost predicate CallChanged(s: Cell, t: Cell, c: nat) {
    && t.owners == s.owners && t.channelOpen == s.channelOpen && t.life == s.life
    && (t.calls == s.calls - {c} || (exists pc, l :: t.calls == s.calls[c := Call(l, pc)] && CanLend(t, l)))
    && (c in s.calls ==> !s.calls[c].pc.SendIncrement? && !s.calls[c].pc.TaskIncrement?)
  }

  lemma CallKeepsRoles(s: Cell, t: Cell, c: nat)
    requires References(s) && Roles(s) && CallChanged(s, t, c) && !s.blocking && !t.blocking
    requires t.word.refs == s.word.refs && t.log.frees == s.log.frees && t.roles == s.roles.(duty := t.roles.duty)
    requires if c in t.calls && t.calls[c].pc.TaskIncrement? then s.roles.duty == Nobody && t.roles.duty == ByCall(c)
             else t.roles.duty == s.roles.duty
    ensures References(t) && Roles(t)
  {
  }

  lemma CallKeepsWake(s: Cell, t: Cell, c: nat)
    requires NoWakeLost(s) && CallChanged(s, t, c)
    requires t.word.complete == s.word.complete && (s.word.notified ==> t.word.notified)
    requires t.log.wakePending ==> s.log.wakePending || s.word.complete || t.word.notified
                                   || (c in t.calls && t.calls[c].pc.SendIncrement?)
    ensures NoWakeLost(t)
  {
    if d :| d in s.calls && s.calls[d].pc.SendIncrement? {
      assert d in t.calls && t.calls[d] == s.calls[d];
    }
  }

  lemma CallStepKeepsInv(s: Cell, c: nat)
    requires Inv(s) && s.life == Live && c in s.calls && (s.calls[c].pc.Remote? || s.calls[c].pc.Local?)
    ensures Inv(StepCall(s, c))
  {
    var t := StepCall(s, c);
    CallKeepsCore(s, t);
    CallKeepsRoles(s, t, c);
    CallKeepsWake(s, t, c);
  }

  lemma WakeByRefKeepsInv(s: Cell, l: Id, c: nat, pc: CallPc)
    requires Inv(s) && CanLend(s, l) && c !in s.calls && (pc.Remote? || pc.Local?)
    ensures Inv(s.(calls := s.calls[c := Call(l, pc)]))
  {
    var t := s.(calls := s.calls[c := Call(l, pc)]);
    CallKeepsCore(s, t);
    CallKeepsRoles(s, t, c);
    CallKeepsWake(s, t, c);
  }

  // ----- all moves -----

  lemma NewRoles(blocking: bool)
    ensures References(New(blocking)) && Roles(New(blocking))
  {
  }

  lemma NewInv(blocking: bool)
    ensures Inv(New(blocking))
  {
    var s := New(blocking);
    NewRoles(blocking);
    assert RunnerOf(s) == None && CompleterOf(s) == None && HandleOf(s) == Some(Resting(None));
  }

  lemma HandleStepKeepsInv(s: Cell, i: Id)
    requires Inv(s) && HandleStep(s, i)
    ensures Inv(StepHandle(s, i))
  {
    var t := StepHandle(s, i);
    HandleMovesAlone(s, i);
    HandleKeepsCore(s, t, i);
    HandleKeepsJoin(s, t, i);
    HandleKeepsRest(s, i);
  }

  lemma GivingBackKeepsInv(s: Cell, i: Id, t: Cell)
    requires Inv(s) && i in s.owners && (s.owners[i].Dropping? || s.owners[i] == Handle(FastDrop))
    requires t == StepOwner(s, i)
    ensures Inv(t)
  {
    if s.owners[i].Dropping? {
      DropKeepsInv(s, i, t);
    } else {
      FastDropKeepsInv(s, i, t);
    }
  }

  lemma StepKeepsInv(s: Cell, i: Id)
    requires Inv(s) && i in s.owners && MovesAlone(s.owners[i])
    ensures Inv(StepOwner(s, i))
  {
    if s.owners[i].Dropping? || s.owners[i] == Handle(FastDrop) {
      GivingBackKeepsInv(s, i, StepOwner(s, i));
    } else if s.owners[i].Handle? {
      HandleStepKeepsInv(s, i);
    } else if WakerStep(s, i) {
      WakerStepKeepsInv(s, i);
    } else {
      TaskStepKeepsInv(s, i);
    }
  }

  lemma WakerStepKeepsInv(s: Cell, i: Id)
    requires Inv(s) && WakerStep(s, i)
    ensures Inv(StepWaker(s, i))
  {
    WakerKeepsCore(s, i);
    WakerKeepsRest(s, i);
  }

  lemma TaskStepKeepsInv(s: Cell, i: Id)
    requires Inv(s) && TaskStep(s, i)
    ensures Inv(StepTask(s, i))
  {
    TaskKeepsCore(s, i);
    TaskKeepsJoin(s, i);
    TaskKeepsRoles(s, i);
    TaskKeepsWake(s, i);
  }

  lemma SomebodyThere(s: Cell, m: Move)
    requires Inv(s) && Enabled(s, m) && !m.CloseChannel? && !m.Free?
    ensures s.life == Live
  {
  }

  lemma PopKeepsInv(s: Cell, i: Id)
    requires Inv(s) && Enabled(s, Pop(i))
    ensures Inv(Apply(s, Pop(i)))
  {
    RelabelKeepsInv(s, i, Starting(false));
  }

  lemma DropWakerKeepsInv(s: Cell, i: Id)
    requires Inv(s) && Enabled(s, DropWaker(i))
    ensures Inv(Apply(s, DropWaker(i)))
  {
    RelabelKeepsInv(s, i, Dropping);
  }

  lemma WakeByValKeepsInv(s: Cell, i: Id, remote: bool)
    requires Inv(s) && Enabled(s, WakeByVal(i, remote))
    ensures Inv(Apply(s, WakeByVal(i, remote)))
  {
    RelabelKeepsInv(s, i, if remote then WakingRemote else WakingLocal);
  }

  lemma ReceiveKeepsInv(s: Cell, i: Id)
    requires Inv(s) && Enabled(s, Receive(i))
    ensures Inv(Apply(s, Receive(i)))
  {
    RelabelKeepsInv(s, i, WakingLocal);
  }

  lemma DropQueuedKeepsInv(s: Cell, i: Id)
    requires Inv(s) && Enabled(s, DropQueuedWaker(i))
    ensures Inv(Apply(s, DropQueuedWaker(i)))
  {
    RelabelKeepsInv(s, i, Dropping);
  }

  lemma HandleCallKeepsInv(s: Cell, m: Move)
    requires Inv(s) && Enabled(s, m) && HandleCall(m)
    ensures Inv(Apply(s, m))
  {
    match m
    case PollJoin(i, w) => JoinCallKeepsInv(s, i, Loading(w));
    case DropJoin(i) => JoinCallKeepsInv(s, i, FastDrop);
  }

  lemma OtherMoveKeepsInv(s: Cell, m: Move)
    requires Inv(s) && Enabled(s, m)
    requires m.StepInc? || m.Discard? || m.PollEnds? || m.Clone? || m.WakeByRef? || m.CallStep? || m.CallInc?
    ensures Inv(Apply(s, m))
  {
    SomebodyThere(s, m);
    match m
    case StepInc(i, born) => StepIncKeepsInv(s, i, born, Apply(s, m));
    case Discard(i) => DiscardKeepsInv(s, i);
    case PollEnds(i, ready) => PollEndsKeepsInv(s, i, ready);
    case Clone(l, born) => CloneKeepsInv(s, born);
    case WakeByRef(l, c, remote) => WakeByRefKeepsInv(s, l, c, if remote then Remote else Local);
    case CallStep(c) => CallStepKeepsInv(s, c);
    case CallInc(c, born) =>
      if s.calls[c].pc.SendIncrement? { SendIncKeepsInv(s, c, born); } else { TaskIncKeepsInv(s, c, born); }
  }

  /** The start of a call on the task side. */
  predicate TaskCall(m: Move) { m.Pop? || m.WakeByVal? || m.DropWaker? || m.Receive? || m.DropQueuedWaker? }

  predicate HandleCall(m: Move) { m.PollJoin? || m.DropJoin? }

  /** A move of the world around the cell. */
  predicate OutsideMove(m: Move) { m.CloseChannel? || m.Free? }

  lemma OutsideMoveKeepsInv(s: Cell, m: Move)
    requires Inv(s) && Enabled(s, m) && OutsideMove(m)
    ensures Inv(Apply(s, m))
  {
  }

  lemma TaskCallKeepsInv(s: Cell, m: Move)
    requires Inv(s) && Enabled(s, m) && TaskCall(m)
    ensures Inv(Apply(s, m))
  {
    if m.Pop? {
      PopKeepsInv(s, m.i);
    } else if m.WakeByVal? {
      WakeByValKeepsInv(s, m.i, m.remote);
    } else if m.DropWaker? {
      DropWakerKeepsInv(s, m.i);
    } else if m.Receive? {
      ReceiveKeepsInv(s, m.i);
    } else {
      DropQueuedKeepsInv(s, m.i);
    }
  }

  lemma StepMoveKeepsInv(s: Cell, m: Move)
    requires Inv(s) && Enabled(s, m) && m.Step?
    ensures Inv(Apply(s, m))
  {
    StepKeepsInv(s, m.i);
  }

  /** The invariant is inductive. */
  lemma MoveKeepsInv(s: Cell, m: Move)
    requires Inv(s) && Enabled(s, m)
    ensures Inv(Apply(s, m))
  {
    if m.Step? {
      StepMoveKeepsInv(s, m);
    } else if OutsideMove(m) {
      OutsideMoveKeepsInv(s, m);
    } else if TaskCall(m) {
      TaskCallKeepsInv(s, m);
    } else if HandleCall(m) {
      HandleCallKeepsInv(s, m);
    } else {
      OtherMoveKeepsInv(s, m);
    }
  }

  lemma HandleKeepsLife(s: Cell, i: Id)
    requires i in s.owners && s.owners[i].Handle?
    ensures var t := StepHandle(s, i); t.life == s.life && t.blocking == s.blocking
  {
  }

  lemma TaskKeepsLife(s: Cell, i: Id)
    requires TaskStep(s, i)
    ensures var t := StepTask(s, i); t.life == s.life && t.blocking == s.blocking
  {
  }

  /** The cell stops being alive only in the ref_dec that takes the count from one to zero, and is freed only after
      it. */
  lemma MoveChangesLife(s: Cell, m: Move)
    requires Enabled(s, m)
    ensures var t := Apply(s, m);
      && t.blocking == s.blocking
      && (t.life != s.life ==>
            || (t.life == Freeing && m.Step? && s.owners[m.i] == Dropping && s.word.refs == 1 && t.word.refs == 0)
            || (t.life == Freed && m.Free? && s.life == Freeing))
  {
    if m.Step? && s.owners[m.i].Handle? {
      HandleKeepsLife(s, m.i);
    } else if m.Step? && TaskStep(s, m.i) {
      TaskKeepsLife(s, m.i);
    }
  }
}
