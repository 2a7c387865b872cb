/** The run loop of a runtime (crates/monoio/src/runtime.rs), its task queue (scheduler.rs) and the flag of the main
    future (task/waker_fn.rs). */
module RunLoop {
  import opened Prelude

  type Task = nat

  class TaskQueue {
    var queue: seq<Task>

    constructor ()
      ensures queue == []
    {
      queue := [];
    }

    function Len(): nat
      reads this
    {
      |queue|
    }

    predicate IsEmpty()
      reads this
    {
      Len() == 0
    }

    method Push(runnable: Task)
      modifies this
      ensures queue == old(queue) + [runnable]
    {
      queue := queue + [runnable];
    }

    method Pop() returns (t: Option<Task>)
      modifies this
      ensures t.None? <==> old(queue) == []
      ensures old(queue) == (if t.Some? then [t.value] else []) + queue
    {
      if queue == [] {
        return None;
      }
      t := Some(queue[0]);
      queue := queue[1..];
    }
  }

  /** What code outside the loop does while it is called: it makes tasks runnable, and may wake the main future. */
  datatype Effect = Effect(runnable: seq<Task>, wakesMain: bool)

  const NOTHING: Effect := Effect([], false)

  /** The wait of a visit to the driver: not entered, because a waker was received or an error returned; ended, by
      anything; or never ended. */
  datatype Wait = Skipped | Ended | Endless

  /** A call of the driver: what it wakes before its wait (the wakers received, or the completions that an early reap
      finds), the wait, and what it wakes afterwards. */
  datatype Visit = Visit(before: Effect, wait: Wait, after: Effect)

  /** The driver has blocked for ever after it woke what is in `early`: in the last of the visits, or because nothing
      comes any more. */
  predicate BlockedAfter(visited: seq<Visit>, outside: seq<Visit>, early: Effect) {
    || (outside == [] && early == NOTHING)
    || (visited != [] && visited[|visited| - 1].wait.Endless? && early == visited[|visited| - 1].before)
  }

  type MainPoll = (Effect, bool)

  /** Between `before` and `after` the main future has been polled: `ready` says what the last poll said, and no poll
      before that one was ready. */
  predicate PolledUntil(before: seq<MainPoll>, after: seq<MainPoll>, ready: bool) {
    && before <= after
    && (forall k :: |before| <= k < |after| - 1 ==> !after[k].1)
    && (ready <==> |before| < |after| && after[|after| - 1].1)
  }

  /** It was polled only if it had been woken, and again only if a poll woke it. */
  predicate PolledWhileWoken(woken: bool, before: seq<MainPoll>, after: seq<MainPoll>) {
    && (|before| < |after| ==> woken)
    && (forall k :: |before| <= k < |after| - 1 ==> after[k].0.wakesMain)
  }

  lemma StillPending(a: seq<MainPoll>, b: seq<MainPoll>, c: seq<MainPoll>, ready: bool)
    requires PolledUntil(a, b, false) && PolledUntil(b, c, ready)
    ensures PolledUntil(a, c, ready)
  {
  }

  class Runtime {
    const tasks: TaskQueue
    var shouldPoll: bool              // SHOULD_POLL
    var inTasks: seq<Effect>          // what the next runs of tasks will do, then nothing
    var inMain: seq<MainPoll>   // what the next polls of the main future will do, and whether it is ready then
    var outside: seq<Visit>           // what comes in through the driver, when it parks or submits
    ghost var pushed: seq<Task>       // every push so far
    ghost var ran: seq<Task>          // every run so far
    ghost const polls: seq<MainPoll>  // the whole script of the main future
    ghost var polled: seq<MainPoll>   // its polls so far
    ghost const visits: seq<Visit>    // the whole script of the driver
    ghost var visited: seq<Visit>     // its visits so far
    ghost var owed: bool              // the main future has been woken, and not been polled since

    /** Every task pushed is run once for each push, in the order of the pushes, or still queued in that order; and the
        main future and the driver go through their scripts. */
    ghost predicate Valid()
      reads this, tasks
    {
      pushed == ran + tasks.queue && polls == polled + inMain && visits == visited + outside
    }

    constructor (inTasks: seq<Effect>, inMain: seq<MainPoll>, outside: seq<Visit>)
      ensures Valid() && ran == [] && tasks.queue == [] && fresh(tasks)
      ensures shouldPoll && owed && polled == [] && visited == []
      ensures this.inTasks == inTasks && this.inMain == inMain && this.outside == outside
    {
      tasks := new TaskQueue();
      shouldPoll := true;
      this.inTasks, this.inMain, this.outside := inTasks, inMain, outside;
      pushed, ran, owed := [], [], true;
      polls, polled, visits, visited := inMain, [], outside, [];
    }

    /** should_poll: SHOULD_POLL.replace(false). */
    method ShouldPoll() returns (was: bool)
      modifies this`shouldPoll
      ensures was == old(shouldPoll) && !shouldPoll
    {
      was := shouldPoll;
      shouldPoll := false;
    }

    method SetPoll()
      modifies this`shouldPoll, this`owed
      ensures shouldPoll && owed
    {
      shouldPoll, owed := true, true;
    }

    method Happen(e: Effect)
      requires Valid()
      modifies this`pushed, this`shouldPoll, this`owed, tasks
      ensures Valid() && tasks.queue == old(tasks.queue) + e.runnable && ran == old(ran)
      ensures shouldPoll == (old(shouldPoll) || e.wakesMain) && owed == (old(owed) || e.wakesMain)
    {
      for i := 0 to |e.runnable|
        invariant Valid() && tasks.queue == old(tasks.queue) + e.runnable[..i]
        invariant shouldPoll == old(shouldPoll) && owed == old(owed)
      {
        tasks.Push(e.runnable[i]);
        pushed := pushed + [e.runnable[i]];
      }
      assert e.runnable[..|e.runnable|] == e.runnable;
      if e.wakesMain {
        SetPoll();
      }
    }

    /** Task::run of a task just popped. */
    method Run(t: Task)
      requires pushed == ran + [t] + tasks.queue && polls == polled + inMain && visits == visited + outside
      modifies this`pushed, this`ran, this`shouldPoll, this`owed, this`inTasks, tasks
      ensures Valid() && ran == old(ran) + [t]
      ensures inTasks == if old(inTasks) == [] then [] else old(inTasks)[1..]
      ensures var e := if old(inTasks) == [] then NOTHING else old(inTasks)[0];
        && tasks.queue == old(tasks.queue) + e.runnable
        && shouldPoll == (old(shouldPoll) || e.wakesMain) && owed == (old(owed) || e.wakesMain)
    {
      ran := ran + [t];
      if inTasks != [] {
        var e := inTasks[0];
        inTasks := inTasks[1..];
        Happen(e);
      }
    }

    /** One round over the queue. The n tasks queued at its start all run, in their order, and at most 2n + 1 tasks do;
        fewer only if the queue runs out. */
    method RunTasks()
      requires Valid()
      modifies this`pushed, this`ran, this`shouldPoll, this`owed, this`inTasks, tasks
      ensures Valid() && old(ran + tasks.queue) <= ran
      ensures |ran| - |old(ran)| <= 2 * old(|tasks.queue|) + 1
      ensures |ran| - |old(ran)| < 2 * old(|tasks.queue|) + 1 ==> tasks.queue == []
      ensures |inTasks| < |old(inTasks)| || (inTasks == old(inTasks) && |tasks.queue| <= old(|tasks.queue|))
      ensures |inTasks| == |old(inTasks)| && old(tasks.queue) != [] ==> |tasks.queue| < old(|tasks.queue|)
      ensures old(tasks.queue) == [] ==> ran == old(ran) && tasks.queue == []
      ensures (old(owed) ==> owed) && (old(owed ==> shouldPoll) ==> owed ==> shouldPoll)
    {
      var maxRound: nat := tasks.Len() * 2;
      ghost var n: nat, count: nat := tasks.Len(), 0;
      var t := tasks.Pop();
      while t.Some?
        invariant pushed == ran + (if t.Some? then [t.value] else []) + tasks.queue
        invariant polls == polled + inMain && visits == visited + outside
        invariant t.None? ==> tasks.queue == []
        invariant count + maxRound == 2 * n && |ran| == |old(ran)| + count
        invariant old(tasks.queue) == [] ==> t.None? && ran == old(ran)
        invariant (old(owed) ==> owed) && (old(owed ==> shouldPoll) ==> owed ==> shouldPoll)
        invariant old(ran + tasks.queue) <= ran + (if t.Some? then [t.value] else []) + tasks.queue
        invariant |inTasks| < |old(inTasks)|
                  || (inTasks == old(inTasks) && count + |tasks.queue| + (if t.Some? then 1 else 0) == n)
        decreases maxRound, t
      {
        Run(t.value);
        count := count + 1;
        if maxRound == 0 {
          break;
        }
        maxRound := maxRound - 1;
        t := tasks.Pop();
      }
    }

    /** One poll of the main future. It is ready when it says so; after the script it stays pending. */
    method PollMain() returns (ready: bool)
      requires Valid()
      modifies this`pushed, this`shouldPoll, this`owed, this`inMain, this`polled, tasks
      ensures Valid() && old(tasks.queue) <= tasks.queue
      ensures if old(inMain) == []
              then
                && inMain == [] && polled == old(polled) && !ready
                && shouldPoll == old(shouldPoll) && !owed && tasks.queue == old(tasks.queue)
              else
                && inMain == old(inMain)[1..] && polled == old(polled) + [old(inMain)[0]] && ready == old(inMain)[0].1
                && shouldPoll == (old(shouldPoll) || old(inMain)[0].0.wakesMain) && owed == old(inMain)[0].0.wakesMain
    {
      owed := false;
      if inMain == [] {
        return false;
      }
      var (e, isReady) := inMain[0];
      polled := polled + [inMain[0]];
      inMain := inMain[1..];
      Happen(e);
      ready := isReady;
    }

    /** Polls the main future for as long as it has been woken, and not if it has not. When it is not ready, no wake of
        it is left unanswered. */
    method CheckMain() returns (ready: bool)
      requires Valid() && (owed ==> shouldPoll)
      modifies this`pushed, this`shouldPoll, this`owed, this`inMain, this`polled, tasks
      ensures Valid() && old(tasks.queue) <= tasks.queue && |inMain| <= |old(inMain)|
      ensures polled == old(polled) ==> tasks.queue == old(tasks.queue) && inMain == old(inMain)
      ensures polled != old(polled) ==> |inMain| < |old(inMain)|
      ensures old(shouldPoll) && old(inMain) != [] ==> polled != old(polled)
      ensures !ready ==> !shouldPoll && !owed
      ensures PolledUntil(old(polled), polled, ready) && PolledWhileWoken(old(shouldPoll), old(polled), polled)
    {
      var again := ShouldPoll();
      while again
        invariant Valid() && old(tasks.queue) <= tasks.queue && !shouldPoll && (owed ==> again)
        invariant if polled == old(polled) then tasks.queue == old(tasks.queue) && inMain == old(inMain)
                  else |inMain| < |old(inMain)|
        invariant PolledUntil(old(polled), polled, false)
        invariant PolledWhileWoken(old(shouldPoll), old(polled), polled) && (again ==> old(shouldPoll))
        invariant old(shouldPoll) && old(inMain) != [] && polled == old(polled) ==> again
        invariant again && |old(polled)| < |polled| ==> polled[|polled| - 1].0.wakesMain
        decreases |inMain|, again
      {
        ready := PollMain();
        if ready {
          return;
        }
        again := ShouldPoll();
      }
      ready := false;
    }

    /** Driver::park, entered only with nothing to run and the main future not woken. False: its wait never ends. What
        it has made runnable before the wait is then still to be done. */
    method Park() returns (woken: bool)
      requires Valid() && tasks.IsEmpty() && !shouldPoll && !owed
      modifies this`pushed, this`shouldPoll, this`owed, this`outside, this`visited, tasks
      ensures Valid() && if old(outside) == [] then outside == [] && visited == old(visited)
                         else outside == old(outside)[1..] && visited == old(visited) + [old(outside)[0]]
      ensures woken == (old(outside) != [] && !old(outside)[0].wait.Endless?)
      ensures var before := if old(outside) == [] then NOTHING else old(outside)[0].before;
        var after := if woken then old(outside)[0].after else NOTHING;
        tasks.queue == before.runnable + after.runnable && shouldPoll == owed == (before.wakesMain || after.wakesMain)
    {
      if outside == [] {
        return false;
      }
      var visit := outside[0];
      visited := visited + [visit];
      outside := outside[1..];
      Happen(visit.before);
      woken := !visit.wait.Endless?;
      if woken {
        Happen(visit.after);
      }
    }

    /** Driver::submit, which does not wait. */
    method Submit()
      requires Valid()
      modifies this`pushed, this`shouldPoll, this`owed, this`outside, this`visited, tasks
      ensures Valid() && old(tasks.queue) <= tasks.queue
      ensures (old(owed) ==> owed) && (old(owed ==> shouldPoll) ==> owed ==> shouldPoll)
      ensures old(outside) != [] ==>
                var v := old(outside)[0];
                && outside == old(outside)[1..]
                && tasks.queue == old(tasks.queue) + (v.before.runnable + v.after.runnable)
                && shouldPoll == (old(shouldPoll) || v.before.wakesMain || v.after.wakesMain)
      ensures |outside| < |old(outside)| || (outside == old(outside) && tasks.queue == old(tasks.queue))
    {
      if outside != [] {
        var visit := outside[0];
        visited := visited + [visit];
        outside := outside[1..];
        Happen(visit.before);
        Happen(visit.after);
      }
    }

    ghost function Coming(): nat
      reads this
    {
      |inTasks| + |inMain| + |outside|
    }

    /** The inner loop: runs until the main future is ready, or there is nothing left to do but park. */
    method RunUntilIdle() returns (ready: bool)
      requires Valid() && (owed ==> shouldPoll)
      modifies this, tasks
      ensures Valid() && Coming() <= old(Coming()) && |outside| <= |old(outside)|
      ensures !ready ==> tasks.IsEmpty() && !shouldPoll && !owed
      ensures old(ran + tasks.queue) <= ran && PolledUntil(old(polled), polled, ready)
    {
      ghost var first := ran + tasks.queue;
      while true
        invariant Valid() && first <= ran + tasks.queue && Coming() <= old(Coming()) && (owed ==> shouldPoll)
        invariant |outside| <= |old(outside)| && PolledUntil(old(polled), polled, false)
        decreases Coming(), |tasks.queue|
      {
        RunTasks();
        ghost var before := polled;
        ready := CheckMain();
        StillPending(old(polled), before, polled, ready);
        if ready {
          return;
        }
        if tasks.IsEmpty() {
          return;
        }
        Submit();
      }
    }

    /** block_on: true when the main future was ready, which its last poll has said and none before. When the wait of
        its last park never ends (false), what is left to do is exactly what the driver woke in that park before the
        wait; with no early reap there, nothing. */
    method BlockOn() returns (done: bool, ghost early: Effect)
      requires Valid()
      modifies this, tasks
      ensures Valid() && PolledUntil(old(polled), polled, done) && (!done ==> BlockedAfter(visited, outside, early))
      ensures !done ==> pushed == ran + early.runnable && tasks.queue == early.runnable
      ensures !done ==> shouldPoll == owed == early.wakesMain
      ensures !done ==> (tasks.IsEmpty() && !shouldPoll <==> early == NOTHING)
    {
      early := NOTHING;
      SetPoll();
      while true
        invariant Valid() && PolledUntil(old(polled), polled, false) && (owed ==> shouldPoll)
        decreases |outside|
      {
        ghost var before := polled;
        done := RunUntilIdle();
        StillPending(old(polled), before, polled, done);
        if done {
          return;
        }
        early := if outside == [] then NOTHING else outside[0].before;
        var woken := Park();
        if !woken {
          return;
        }
      }
    }
  }

  /** One turn of the loop in block_on, with nothing queued: the early reap of its park wakes a task, and the wait never
      ends. */
  method BlocksInFrontOfATask() returns (r: Runtime, woken: bool)
    ensures r.Valid() && !woken && r.tasks.queue == [7] && r.ran == []
  {
    r := new Runtime([], [], [Visit(Effect([7], false), Endless, NOTHING)]);
    r.SetPoll();
    r.RunTasks();
    var ready := r.CheckMain();
    assert !ready && r.tasks.IsEmpty() && r.outside != [];
    woken := r.Park();
  }
}
