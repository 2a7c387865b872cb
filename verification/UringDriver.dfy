/** The uring driver's operation table as the code keeps it: a slab of lifecycles changed in place
    (crates/monoio/src/driver/uring/mod.rs and lifecycle.rs). Every method is one step of UringTable, done through the
    slab; with the invariant of that system nothing the code leaves undefined can be reached. */
module UringDriver {
  import opened Prelude
  import opened UringTable
  import opened Slab

  /** A completion queue entry. */
  datatype Cqe = Cqe(userData: nat, res: int, flags: nat)

  function Resultify(res: int): IoResult {
    if res >= 0 then IoResult.Ok(res) else Err(-res)
  }

  predicate Reserved(c: Cqe) { c.userData >= MIN_REVERSED_USERDATA }

  predicate NoEventfd(cq: seq<Cqe>) { forall c :: c in cq ==> c.userData != EVENTFD_USERDATA }

  /** `c` answers the submission `n`, which is in flight. */
  ghost predicate Answer(w: World, c: Cqe, n: Serial) {
    !Reserved(c) ==> (c.userData, n) in w.inFlight
  }

  /** `cq` holds answers to operations in flight, each once; `serials` tells to which submissions. */
  ghost predicate Answers(w: World, cq: seq<Cqe>, serials: seq<Serial>) {
    && |serials| == |cq|
    && (forall i :: 0 <= i < |cq| ==> Answer(w, cq[i], serials[i]))
    && (forall i, j :: 0 <= i < j < |cq| && !Reserved(cq[i]) ==> cq[i].userData != cq[j].userData)
  }

  /** Whom the driver wakes, and what it closes, when the answer to `k` comes in. */
  ghost function WokenBy(w: World, c: Cqe): seq<Waker> {
    if !Reserved(c) && c.userData in w.table && w.table[c.userData].lifecycle.Waiting?
    then [w.table[c.userData].lifecycle.waker] else []
  }

  ghost function ClosedBy(w: World, c: Cqe): seq<nat> {
    if !Reserved(c) && c.userData in w.table && w.table[c.userData].lifecycle.Ignored?
       && w.table[c.userData].isFd && c.res >= 0
    then [c.res] else []
  }

  /** The table, the wakes and the closes so far. */
  datatype Driven = Driven(world: World, woken: seq<Waker>, closed: seq<nat>)

  ghost function ReapOne(d: Driven, c: Cqe, n: Serial): Driven {
    Driven(if Reserved(c) then d.world else DoComplete(d.world, c.userData, n, Resultify(c.res), c.flags),
           d.woken + WokenBy(d.world, c), d.closed + ClosedBy(d.world, c))
  }

  /** The answer to `n` that the driver has seen: a number from zero up, or an error by its code. */
  ghost predicate Logged(w: World, c: Cqe, n: Serial) {
    n in w.ledger.answers && w.ledger.answers[n] == (if c.res >= 0 then IoResult.Ok(c.res) else Err(-c.res), c.flags)
  }

  /** What reaping `cq` amounts to, entry by entry. */
  ghost function Reaped(d: Driven, cq: seq<Cqe>, serials: seq<Serial>): Driven
    requires |serials| == |cq|
    decreases |cq|
  {
    if cq == [] then d else Reaped(ReapOne(d, cq[0], serials[0]), cq[1..], serials[1..])
  }

  lemma ReapKeepsAnswers(d: Driven, cq: seq<Cqe>, serials: seq<Serial>)
    requires Reachable(d.world) && Answers(d.world, cq, serials) && cq != []
    ensures var t := ReapOne(d, cq[0], serials[0]).world;
      && Reachable(t) && Answers(t, cq[1..], serials[1..])
      && t.inFlight == (if Reserved(cq[0]) then d.world.inFlight else d.world.inFlight - {(cq[0].userData, serials[0])})
      && (!Reserved(cq[0]) ==> Logged(t, cq[0], serials[0]))
  {
    assert Answer(d.world, cq[0], serials[0]);
    if !Reserved(cq[0]) {
      CompleteEffect(d.world, cq[0].userData, serials[0], Resultify(cq[0].res), cq[0].flags);
    }
    var t := ReapOne(d, cq[0], serials[0]).world;
    forall i | 0 <= i < |cq[1..]|
      ensures Answer(t, cq[1..][i], serials[1..][i])
    {
      assert Answer(d.world, cq[i + 1], serials[i + 1]);
    }
  }

  predicate AnsweredIn(p: (nat, Serial), cq: seq<Cqe>, serials: seq<Serial>)
    requires |serials| == |cq|
  {
    exists i :: 0 <= i < |cq| && cq[i].userData == p.0 && serials[i] == p.1
  }

  /** A drained queue leaves in flight exactly what it did not answer, and the table still agrees with the kernel. */
  lemma {:induction false} DrainedQueue(d: Driven, cq: seq<Cqe>, serials: seq<Serial>)
    requires Reachable(d.world) && Answers(d.world, cq, serials)
    ensures Reachable(Reaped(d, cq, serials).world)
    ensures forall p :: p in Reaped(d, cq, serials).world.inFlight <==>
                        p in d.world.inFlight && (AnsweredIn(p, cq, serials) ==> p.0 >= MIN_REVERSED_USERDATA)
    decreases |cq|
  {
    if cq != [] {
      ReapKeepsAnswers(d, cq, serials);
      DrainedQueue(ReapOne(d, cq[0], serials[0]), cq[1..], serials[1..]);
      forall p
        ensures AnsweredIn(p, cq, serials) <==>
                  (p.0 == cq[0].userData && p.1 == serials[0]) || AnsweredIn(p, cq[1..], serials[1..])
      {
        if AnsweredIn(p, cq, serials) {
          var i :| 0 <= i < |cq| && cq[i].userData == p.0 && serials[i] == p.1;
          assert i > 0 ==> cq[1..][i - 1] == cq[i] && serials[1..][i - 1] == serials[i];
        }
        if AnsweredIn(p, cq[1..], serials[1..]) {
          var i :| 0 <= i < |cq[1..]| && cq[1..][i].userData == p.0 && serials[1..][i] == p.1;
          assert cq[i + 1] == cq[1..][i];
        }
      }
    }
  }

  /** A later answer does not touch one that has come in. */
  lemma {:induction false} AnswersStay(d: Driven, cq: seq<Cqe>, serials: seq<Serial>, n: Serial)
    requires Reachable(d.world) && Answers(d.world, cq, serials) && n in d.world.ledger.answers
    ensures var l := Reaped(d, cq, serials).world.ledger;
      n in l.answers && l.answers[n] == d.world.ledger.answers[n]
    decreases |cq|
  {
    if cq != [] {
      ReapKeepsAnswers(d, cq, serials);
      assert Answer(d.world, cq[0], serials[0]);
      ReachableInv(d.world);
      AnswersStay(ReapOne(d, cq[0], serials[0]), cq[1..], serials[1..], n);
    }
  }

  /** Every completion drained is logged as what it says, for the submission it answers. */
  lemma {:induction false} DrainedIsLogged(d: Driven, cq: seq<Cqe>, serials: seq<Serial>, i: nat)
    requires Reachable(d.world) && Answers(d.world, cq, serials) && i < |cq| && !Reserved(cq[i])
    ensures Logged(Reaped(d, cq, serials).world, cq[i], serials[i])
    decreases |cq|
  {
    ReapKeepsAnswers(d, cq, serials);
    if i == 0 {
      AnswersStay(ReapOne(d, cq[0], serials[0]), cq[1..], serials[1..], serials[0]);
    } else {
      DrainedIsLogged(ReapOne(d, cq[0], serials[0]), cq[1..], serials[1..], i - 1);
    }
  }

  class UringInner {
    const ops: Slab<Entry>
    var eventfdInstalled: bool
    var woken: seq<Waker>    // calls of Waker::wake
    var closed: seq<nat>     // descriptors passed to close
    var cancels: seq<nat>    // AsyncCancel entries pushed, by index
    ghost var world: World

    ghost predicate Valid()
      reads this, ops, ops.Repr
    {
      ops.Valid() && this !in ops.Repr && ops.contents == world.table && Reachable(world)
    }

    ghost function View(): Driven
      reads this
    {
      Driven(world, woken, closed)
    }

    constructor ()
      ensures Valid() && fresh(ops.Repr) && world == EMPTY_WORLD
    {
      ops := new Slab<Entry>();
      eventfdInstalled := false;
      woken, closed, cancels := [], [], [];
      world := EMPTY_WORLD;
      EmptyReachable();
    }

    /** MaybeFd::drop */
    method DropMaybeFd(r: MaybeFd)
      modifies this`closed
      ensures closed == old(closed) + (if IsDescriptor(r) then [r.fd] else [])
    {
      if r.Number? && r.isFd {
        closed := closed + [r.fd];
      }
    }

    /** MaybeFdLifecycle::complete, on an entry that has not completed before (else unreachable_unchecked). */
    method CompleteEntry(index: nat, e: Entry, r: MaybeFd, flags: nat)
      requires ops.Valid() && this !in ops.Repr && index < MIN_REVERSED_USERDATA
      requires index in ops.contents && ops.contents[index] == e && !e.lifecycle.Completed?
      modifies this`woken, this`closed, ops.Repr
      ensures ops.Valid() && ops.Repr == old(ops.Repr)
      ensures ops.contents == CompletedTable(old(ops.contents), index, r, flags)
      ensures woken == old(woken) + (if e.lifecycle.Waiting? then [e.lifecycle.waker] else [])
      ensures closed == old(closed) + (if e.lifecycle.Ignored? && IsDescriptor(r) then [r.fd] else [])
    {
      match e.lifecycle {
        case Submitted =>
          ops.RefWrite(index, e.(lifecycle := Completed(r, flags)));
        case Waiting(waker) =>
          ops.RefWrite(index, e.(lifecycle := Completed(r, flags)));
          woken := woken + [waker];
        case Ignored(_) =>
          var removed := ops.RefRemove(index);
          DropMaybeFd(r);
        case Completed(_, _) =>
          assert false;
      }
    }

    /** Ops::complete: the index must be there (unwrap_unchecked). */
    method Complete(index: nat, result: IoResult, flags: nat, ghost n: Serial)
      requires Valid() && (index, n) in world.inFlight
      modifies this`world, this`woken, this`closed, ops.Repr
      ensures Valid() && ops.Repr == old(ops.Repr)
      ensures world == DoComplete(old(world), index, n, result, flags)
      ensures index in old(world).table
      ensures n in world.ledger.answers && world.ledger.answers[n] == (result, flags)
      ensures var e := old(world).table[index];
        && woken == old(woken) + (if e.lifecycle.Waiting? then [e.lifecycle.waker] else [])
        && closed == old(closed) + (if e.lifecycle.Ignored? && e.isFd && result.Ok? then [result.value] else [])
    {
      CompleteEffect(world, index, n, result, flags);
      var found := ops.Get(index);
      assert found.Some?;
      var e := found.value;
      CompleteEntry(index, e, NewResult(result, e.isFd), flags);
      world := DoComplete(world, index, n, result, flags);
    }

    /** MaybeFdLifecycle::poll_op on an entry that is not Ignored (else unreachable_unchecked). */
    method PollEntry(index: nat, e: Entry, waker: Waker) returns (r: Poll<(MaybeFd, nat)>)
      requires ops.Valid() && this !in ops.Repr && index < MIN_REVERSED_USERDATA
      requires index in ops.contents && ops.contents[index] == e && !e.lifecycle.Ignored?
      modifies ops.Repr
      ensures ops.Valid() && ops.Repr == old(ops.Repr)
      ensures ops.contents == PolledTable(old(ops.contents), index, waker)
      ensures r == if e.lifecycle.Completed? then Ready((e.lifecycle.result, e.lifecycle.flags)) else Pending
    {
      match e.lifecycle {
        case Submitted =>
          ops.RefWrite(index, e.(lifecycle := Waiting(waker)));
          return Pending;
        case Waiting(current) =>
          if current != waker {
            ops.RefWrite(index, e.(lifecycle := Waiting(waker)));
          }
          return Pending;
        case _ =>
      }
      var removed := ops.RefRemove(index);
      match removed.lifecycle {
        case Completed(result, flags) => r := Ready((result, flags));
        case _ => assert false;
      }
    }

    /** Op::poll of the Op for submission `n`; on Ready the caller has what the entry held, which is the kernel's answer
        to this submission, and the Op's data. */
    method PollOp(index: nat, waker: Waker, ghost n: Serial) returns (r: Poll<(MaybeFd, nat)>)
      requires Valid() && n in world.ops && world.ops[n].data.Some? && world.ops[n].index == index
      modifies this`world, ops.Repr
      ensures Valid() && ops.Repr == old(ops.Repr)
      ensures world == DoPoll(old(world), n, waker) && index in old(world).table
      ensures var l := old(world).table[index].lifecycle;
        r == if l.Completed? then Ready((l.result, l.flags)) else Pending
      ensures r.Ready? ==> world.ops[n].index == USIZE_MAX && index !in world.table
      ensures r.Ready? ==>
                && n in world.ledger.answers && n in world.ledger.kinds && r.value.1 == world.ledger.answers[n].1
                && match world.ledger.answers[n].0
                   case Ok(v) => r.value.0 == Number(world.ledger.kinds[n], v)
                   case Err(e) => r.value.0 == UringTable.Failed(e)
      ensures r.Ready? && IsDescriptor(r.value.0) ==>
                && n in world.returned && world.returned[n] == r.value.0.fd
                && world.movedOut == old(world).movedOut + multiset{n}
      ensures r.Pending? ==>
                && world.ops[n].lastPending == Some(waker)
                && index in world.table && world.table[index].lifecycle == Waiting(waker)
    {
      PollEffect(world, n, waker);
      var found := ops.Get(index);
      assert found.Some?;
      r := PollEntry(index, found.value, waker);
      world := DoPoll(world, n, waker);
    }

    /** MaybeFdLifecycle::drop_op; returns whether the operation must have finished. */
    method DropEntry(index: nat, e: Entry, data: Option<Serial>) returns (finished: bool)
      requires ops.Valid() && this !in ops.Repr && index < MIN_REVERSED_USERDATA
      requires index in ops.contents && ops.contents[index] == e && !e.lifecycle.Ignored?
      modifies this`closed, ops.Repr
      ensures ops.Valid() && ops.Repr == old(ops.Repr)
      ensures ops.contents == DroppedTable(old(ops.contents), index, data)
      ensures finished == e.lifecycle.Completed?
      ensures closed == old(closed) + (if finished && IsDescriptor(e.lifecycle.result)
                                       then [e.lifecycle.result.fd] else [])
    {
      match e.lifecycle {
        case Submitted =>
          ops.RefWrite(index, e.(lifecycle := Ignored(data)));
          return false;
        case Waiting(_) =>
          ops.RefWrite(index, e.(lifecycle := Ignored(data)));
          return false;
        case Completed(_, _) =>
          var removed := ops.RefRemove(index);
          DropMaybeFd(removed.lifecycle.result);
        case Ignored(_) =>
          assert false;
      }
      return true;
    }

    /** drop_op on the entry that was found, and the cancellation it calls for. */
    method DropFound(index: nat, e: Entry, data: Option<Serial>, skipCancel: bool)
      requires ops.Valid() && this !in ops.Repr && index < MIN_REVERSED_USERDATA
      requires index in ops.contents && ops.contents[index] == e && !e.lifecycle.Ignored?
      modifies this`closed, this`cancels, ops.Repr
      ensures ops.Valid() && ops.Repr == old(ops.Repr)
      ensures ops.contents == DroppedTable(old(ops.contents), index, data)
      ensures cancels == old(cancels) + (if !e.lifecycle.Completed? && !skipCancel then [index] else [])
      ensures closed == old(closed) + (if e.lifecycle.Completed? && IsDescriptor(e.lifecycle.result)
                                       then [e.lifecycle.result.fd] else [])
    {
      var finished := DropEntry(index, e, data);
      if !finished && !skipCancel {
        cancels := cancels + [index];
      }
    }

    /** UringInner::drop_op, called by Op::drop for submission `n`. A cancellation is pushed exactly for an operation
        that may still be running and does not ask to be left alone. */
    method DropOp(index: nat, data: Option<Serial>, skipCancel: bool, ghost n: Serial)
      requires Valid() && n in world.ops && world.ops[n].index == index && world.ops[n].data == data
      modifies this`world, this`closed, this`cancels, ops.Repr
      ensures Valid() && ops.Repr == old(ops.Repr)
      ensures world == DoDrop(old(world), n) && n !in world.ops
      ensures cancels == old(cancels) + (if (index, n) in world.inFlight && !skipCancel then [index] else [])
      ensures closed == old(closed) + (if Held(old(world), n) && n in old(world).returned
                                       then [old(world).returned[n]] else [])
    {
      DropEffect(world, n);
      if index == USIZE_MAX {
        world := DoDrop(world, n);
        return;
      }
      var found := ops.Get(index);
      if found.Some? {
        DropFound(index, found.value, data, skipCancel);
      }
      world := DoDrop(world, n);
    }

    /** UringInner::submit_with_data: a new entry under a fresh index, which is what the kernel is told.
        None is the slab's "out of slot" panic. */
    method SubmitWithData(isFd: bool) returns (index: Option<nat>)
      requires Valid()
      modifies this`world, ops.Repr
      ensures Valid() && fresh(ops.Repr - old(ops.Repr))
      ensures index.None? ==>
                && world == old(world)
                && forall i :: old(ops.wPageId) <= i < NUM_PAGES ==> i < |ops.parts| && |ops.parts[i]| == PageSize(i)
      ensures index.Some? ==>
                Enabled(old(world), Submit(index.value, isFd)) && world == DoSubmit(old(world), index.value, isFd)
    {
      index := ops.Insert(Entry(isFd, Submitted));
      if index.Some? {
        SubmitEffect(world, index.value, isFd);
        world := DoSubmit(world, index.value, isFd);
      }
    }

    /** One entry of the completion queue. Cancel and timeout answers are ignored, the eventfd's disarms it. */
    method Reap(c: Cqe, ghost n: Serial)
      requires Valid() && Answer(world, c, n)
      modifies this`world, this`woken, this`closed, this`eventfdInstalled, ops.Repr
      ensures Valid() && ops.Repr == old(ops.Repr) && View() == ReapOne(old(View()), c, n)
      ensures eventfdInstalled == (old(eventfdInstalled) && c.userData != EVENTFD_USERDATA)
      ensures !Reserved(c) ==> Logged(world, c, n)
    {
      if c.userData == EVENTFD_USERDATA {
        eventfdInstalled := false;
      } else if c.userData < MIN_REVERSED_USERDATA {
        Complete(c.userData, Resultify(c.res), c.flags, n);
      }
    }

    /** UringInner::tick: drains the completion queue. */
    method Tick(cq: seq<Cqe>, ghost serials: seq<Serial>)
      requires Valid() && Answers(world, cq, serials)
      modifies this`world, this`woken, this`closed, this`eventfdInstalled, ops.Repr
      ensures Valid() && ops.Repr == old(ops.Repr) && View() == Reaped(old(View()), cq, serials)
      ensures eventfdInstalled == (old(eventfdInstalled) && NoEventfd(cq))
      ensures forall j :: 0 <= j < |cq| && !Reserved(cq[j]) ==> Logged(world, cq[j], serials[j])
    {
      forall j | 0 <= j < |cq| && !Reserved(cq[j])
        ensures Logged(Reaped(View(), cq, serials).world, cq[j], serials[j])
      {
        DrainedIsLogged(View(), cq, serials, j);
      }
      var i := 0;
      while i < |cq|
        invariant i <= |cq| && Valid() && ops.Repr == old(ops.Repr)
        invariant Answers(world, cq[i..], serials[i..])
        invariant Reaped(View(), cq[i..], serials[i..]) == Reaped(old(View()), cq, serials)
        invariant eventfdInstalled == (old(eventfdInstalled) && NoEventfd(cq[..i]))
      {
        assert cq[i..][1..] == cq[i + 1..] && serials[i..][1..] == serials[i + 1..];
        assert cq[..i + 1] == cq[..i] + [cq[i]];
        ReapKeepsAnswers(View(), cq[i..], serials[i..]);
        Reap(cq[i], serials[i]);
        i := i + 1;
      }
      assert cq[..i] == cq;
    }
  }
}
