/** The uring operation table against the kernel (crates/monoio/src/driver/uring/lifecycle.rs and mod.rs, and
    crates/monoio/src/driver/op.rs), as a transition system.

    The kernel is the set of submissions it still has in flight; it answers each exactly once, in any order. A
    submission has a serial number, which neither the kernel nor the driver sees: both know it only by its slab index,
    and indices are reused. A step of the driver looks at the slab by index alone; where the code is undefined
    (unwrap_unchecked, unreachable_unchecked) or panics, the step sets `fault`. */
module UringTable {
  import opened Prelude

  const CANCEL_USERDATA: nat := USIZE_MAX
  const TIMEOUT_USERDATA: nat := USIZE_MAX - 1
  const EVENTFD_USERDATA: nat := USIZE_MAX - 2
  const MIN_REVERSED_USERDATA: nat := USIZE_MAX - 3

  type Serial = nat
  type Waker = nat

  datatype IoResult = Ok(value: nat) | Err(code: int)

  /** io::Result<MaybeFd>: a number that is closed when dropped if it is a descriptor. */
  datatype MaybeFd = Number(isFd: bool, fd: nat) | Failed(code: int)

  function NewResult(r: IoResult, isFd: bool): MaybeFd {
    match r
    case Ok(v) => Number(isFd, v)
    case Err(e) => Failed(e)
  }

  predicate IsDescriptor(r: MaybeFd) { r.Number? && r.isFd }

  datatype Lifecycle =
    | Submitted
    | Waiting(waker: Waker)
    | Ignored(data: Option<Serial>)
    | Completed(result: MaybeFd, flags: nat)

  datatype Entry = Entry(isFd: bool, lifecycle: Lifecycle)

  /** An Op future: its index (usize::MAX once finished) and its data, which is named by the submission it was for. */
  datatype Op = Op(index: nat, data: Option<Serial>, lastPending: Option<Waker>)

  datatype World = World(
    table: map<nat, Entry>,            // the slab
    serial: map<nat, Serial>,          // whose entry it is
    inFlight: set<(nat, Serial)>,      // what the kernel has: the index it was told, and the submission
    ops: map<Serial, Op>,              // the live Op futures
    next: Serial,
    woken: set<(Serial, Waker)>,
    returned: map<Serial, nat>,        // descriptors the kernel created
    movedOut: multiset<Serial>,        // descriptors handed to the caller
    closed: multiset<Serial>,          // descriptors closed
    freed: set<Serial>,                // operation data that has been dropped
    ledger: Ledger,
    fault: bool)

  /** By submission: whether it asked for a descriptor, what the kernel answered, and what its Op was given. */
  datatype Ledger = Ledger(kinds: map<Serial, bool>, answers: map<Serial, (IoResult, nat)>,
                           got: map<Serial, (MaybeFd, nat)>)

  const EMPTY_WORLD := World(map[], map[], {}, map[], 0, {}, map[], multiset{}, multiset{}, {},
                               Ledger(map[], map[], map[]), false)

  datatype Step =
    | Submit(key: nat, isFd: bool)     // the slab hands out some free key
    | Complete(key: nat, serial: Serial, result: IoResult, flags: nat)
    | PollOp(op: Serial, waker: Waker)
    | DropOp(op: Serial)

  function DropResult(closed: multiset<Serial>, n: Serial, r: MaybeFd): multiset<Serial> {
    if IsDescriptor(r) then closed + multiset{n} else closed
  }

  predicate Enabled(w: World, s: Step) {
    match s
    case Submit(k, _) => k !in w.table && k < MIN_REVERSED_USERDATA
    case Complete(k, n, _, _) => (k, n) in w.inFlight
    case PollOp(n, _) => n in w.ops && w.ops[n].data.Some?
    case DropOp(n) => n in w.ops
  }

  function DoSubmit(w: World, k: nat, isFd: bool): World {
    w.(table := w.table[k := Entry(isFd, Submitted)], serial := w.serial[k := w.next],
       inFlight := w.inFlight + {(k, w.next)}, ops := w.ops[w.next := Op(k, Some(w.next), None)],
       ledger := w.ledger.(kinds := w.ledger.kinds[w.next := isFd]), next := w.next + 1)
  }

  /** MaybeFdLifecycle::complete. The kernel's answer to submission `n` arrives under index `k`. */
  function DoComplete(w: World, k: nat, n: Serial, result: IoResult, flags: nat): World {
    if k !in w.table || w.table[k].lifecycle.Completed? then w.(fault := true)
    else
      var e := w.table[k];
      var r := NewResult(result, e.isFd);
      var t := w.(inFlight := w.inFlight - {(k, n)},
                  returned := if IsDescriptor(r) then w.returned[n := r.fd] else w.returned,
                  ledger := w.ledger.(answers := w.ledger.answers[n := (result, flags)]));
      match e.lifecycle
      case Submitted => t.(table := t.table[k := e.(lifecycle := Completed(r, flags))])
      case Waiting(waker) =>
        t.(table := t.table[k := e.(lifecycle := Completed(r, flags))],
           woken := if k in t.serial then t.woken + {(t.serial[k], waker)} else t.woken)
      case Ignored(data) =>
        t.(table := Without(t.table, k), serial := Without(t.serial, k), closed := DropResult(t.closed, n, r),
           freed := if data.Some? then t.freed + {data.value} else t.freed)
  }

  /** Op::poll. */
  function DoPoll(w: World, n: Serial, waker: Waker): World
    requires n in w.ops
  {
    var op := w.ops[n];
    if op.index !in w.table then w.(fault := true)
    else
      var e := w.table[op.index];
      match e.lifecycle
      case Submitted | Waiting(_) =>
        w.(table := w.table[op.index := e.(lifecycle := Waiting(waker))],
           ops := w.ops[n := op.(lastPending := Some(waker))])
      case Ignored(_) => w.(fault := true)
      case Completed(r, flags) =>
        w.(table := Without(w.table, op.index), serial := Without(w.serial, op.index),
           ops := w.ops[n := Op(USIZE_MAX, None, None)],
           ledger := w.ledger.(got := w.ledger.got[n := (r, flags)]),
           movedOut := if IsDescriptor(r) then w.movedOut + multiset{n} else w.movedOut)
  }

  /** Op::drop, after which whatever data the Op still had is dropped with it. */
  function DoDrop(w: World, n: Serial): World
    requires n in w.ops
  {
    var op := w.ops[n];
    var t := w.(ops := Without(w.ops, n));
    var dropped := if op.data.Some? then t.freed + {op.data.value} else t.freed;
    if op.index == USIZE_MAX || op.index !in w.table then t.(freed := dropped)
    else
      var e := w.table[op.index];
      match e.lifecycle
      case Submitted | Waiting(_) => t.(table := t.table[op.index := e.(lifecycle := Ignored(op.data))])
      case Completed(r, _) =>
        t.(table := Without(t.table, op.index), serial := Without(t.serial, op.index),
           closed := DropResult(t.closed, n, r), freed := dropped)
      case Ignored(_) => t.(fault := true)
  }

  function Apply(w: World, s: Step): World
    requires Enabled(w, s)
  {
    match s
    case Submit(k, isFd) => DoSubmit(w, k, isFd)
    case Complete(k, n, result, flags) => DoComplete(w, k, n, result, flags)
    case PollOp(n, waker) => DoPoll(w, n, waker)
    case DropOp(n) => DoDrop(w, n)
  }

  // ----- the invariant -----

  /** The descriptor of submission `n` waits in the table. */
  predicate Held(w: World, n: Serial) {
    n in w.ops && w.ops[n].index in w.table
    && w.table[w.ops[n].index].lifecycle.Completed? && IsDescriptor(w.table[w.ops[n].index].lifecycle.result)
  }

  ghost predicate EntryOk(w: World, k: nat)
    requires k in w.table && k in w.serial
  {
    var n, l := w.serial[k], w.table[k].lifecycle;
    && n < w.next && k < MIN_REVERSED_USERDATA
    && ((k, n) in w.inFlight <==> !l.Completed?)
    && (if l.Ignored? then n !in w.ops && l.data == Some(n) else n in w.ops && w.ops[n].index == k)
    && (l.Waiting? ==> w.ops[n].lastPending == Some(l.waker))
  }

  ghost predicate OpOk(w: World, n: Serial)
    requires n in w.ops
  {
    var op := w.ops[n];
    if op.index == USIZE_MAX then op.data == None && op.lastPending == None
    else
      && op.index in w.table && op.index in w.serial && w.serial[op.index] == n && op.data == Some(n)
      && (op.lastPending.Some? ==>
            var l := w.table[op.index].lifecycle;
            l == Waiting(op.lastPending.value) || (l.Completed? && (n, op.lastPending.value) in w.woken))
  }

  /** The table, the kernel and the live ops agree. */
  ghost predicate TableInv(w: World) {
    && !w.fault
    && w.serial.Keys == w.table.Keys
    && (forall k :: k in w.table ==> EntryOk(w, k))
    && (forall j, k :: j in w.serial && k in w.serial && w.serial[j] == w.serial[k] ==> j == k)
    && (forall p :: p in w.inFlight ==> p.0 in w.table && w.serial[p.0] == p.1)
    && (forall n :: n in w.ops ==> n < w.next && OpOk(w, n))
  }

  ghost predicate FdOk(w: World, n: Serial) {
    && w.closed[n] + w.movedOut[n] + (if Held(w, n) then 1 else 0) == (if n in w.returned then 1 else 0)
    && (Held(w, n) ==> w.returned[n] == w.table[w.ops[n].index].lifecycle.result.fd)
  }

  /** Every descriptor the kernel created is in one place. */
  ghost predicate FdInv(w: World) {
    && (forall n :: FdOk(w, n))
    && (forall n :: n in w.returned ==> n < w.next)
    && (forall p :: p in w.inFlight ==> p.1 !in w.returned)
  }

  /** No data is dropped that the kernel may still use. */
  ghost predicate DataInv(w: World) {
    && (forall n :: n in w.freed ==> n < w.next)
    && (forall p :: p in w.inFlight ==> p.1 !in w.freed)
  }

  /** What submission `n` is owed: the kernel's own answer to it, as a descriptor if it asked for one. */
  predicate IsAnswer(w: World, n: Serial, r: (MaybeFd, nat)) {
    && n in w.ledger.answers && n in w.ledger.kinds
    && r == (NewResult(w.ledger.answers[n].0, w.ledger.kinds[n]), w.ledger.answers[n].1)
  }

  ghost predicate EntryHolds(w: World, k: nat)
    requires k in w.table && k in w.serial
  {
    var n, e := w.serial[k], w.table[k];
    && n in w.ledger.kinds && e.isFd == w.ledger.kinds[n]
    && (e.lifecycle.Completed? ==> IsAnswer(w, n, (e.lifecycle.result, e.lifecycle.flags)))
  }

  /** No answer goes to the wrong submission, under a reused index or otherwise. */
  ghost predicate AnswerInv(w: World) {
    && w.serial.Keys == w.table.Keys
    && (forall k :: k in w.table ==> EntryHolds(w, k))
    && (forall n :: n in w.ledger.got ==> IsAnswer(w, n, w.ledger.got[n]))
    && (forall n :: n in w.ledger.kinds || n in w.ledger.answers ==> n < w.next)
    && (forall p :: p in w.inFlight ==> p.1 !in w.ledger.answers)
  }

  ghost predicate Inv(w: World) {
    TableInv(w) && FdInv(w) && DataInv(w) && AnswerInv(w)
  }

  lemma EmptyInv()
    ensures Inv(EMPTY_WORLD)
  {
  }

  lemma SubmitKeepsTable(w: World, k: nat, isFd: bool)
    requires TableInv(w) && Enabled(w, Submit(k, isFd))
    ensures TableInv(DoSubmit(w, k, isFd))
  {
    var t := DoSubmit(w, k, isFd);
    assert forall j :: j in w.serial ==> EntryOk(w, j);
    assert w.next !in w.ops;
    forall j | j in t.table
      ensures EntryOk(t, j)
    {
      if j != k {
        assert EntryOk(w, j);
        assert (j, t.serial[j]) in t.inFlight <==> (j, w.serial[j]) in w.inFlight;
      } else {
        assert EntryOk(t, k);
      }
    }
    forall m | m in t.ops
      ensures m < t.next && OpOk(t, m)
    {
      assert m in w.ops ==> OpOk(w, m);
    }
  }

  lemma SubmitKeepsFds(w: World, k: nat, isFd: bool)
    requires TableInv(w) && FdInv(w) && Enabled(w, Submit(k, isFd))
    ensures FdInv(DoSubmit(w, k, isFd))
  {
    var t := DoSubmit(w, k, isFd);
    forall m
      ensures FdOk(t, m)
    {
      assert FdOk(w, m) && (m in w.ops ==> OpOk(w, m));
    }
  }

  lemma SubmitKeepsData(w: World, k: nat, isFd: bool)
    requires TableInv(w) && DataInv(w) && Enabled(w, Submit(k, isFd))
    ensures DataInv(DoSubmit(w, k, isFd))
  {
  }

  lemma CompleteKeepsEntries(w: World, k: nat, n: Serial, result: IoResult, flags: nat)
    requires TableInv(w) && (k, n) in w.inFlight
    ensures var t := DoComplete(w, k, n, result, flags);
      && t.serial.Keys == t.table.Keys && !t.fault
      && forall j :: j in t.table ==> EntryOk(t, j)
  {
    var t := DoComplete(w, k, n, result, flags);
    assert EntryOk(w, k);
    forall j | j in t.table
      ensures EntryOk(t, j)
    {
      assert EntryOk(w, j);
    }
  }

  lemma CompleteKeepsTable(w: World, k: nat, n: Serial, result: IoResult, flags: nat)
    requires TableInv(w) && (k, n) in w.inFlight
    ensures TableInv(DoComplete(w, k, n, result, flags))
  {
    var t := DoComplete(w, k, n, result, flags);
    CompleteKeepsEntries(w, k, n, result, flags);
    assert EntryOk(w, k);
    forall m | m in t.ops
      ensures OpOk(t, m)
    {
      assert OpOk(w, m);
    }
  }

  /** Only the answered submission's descriptor is affected. */
  lemma CompleteKeepsOthersHeld(w: World, k: nat, n: Serial, result: IoResult, flags: nat, m: Serial)
    requires TableInv(w) && (k, n) in w.inFlight && m != n
    ensures Held(DoComplete(w, k, n, result, flags), m) == Held(w, m)
  {
  }

  lemma CompleteKeepsFd(w: World, k: nat, n: Serial, result: IoResult, flags: nat)
    requires TableInv(w) && FdInv(w) && (k, n) in w.inFlight
    ensures FdOk(DoComplete(w, k, n, result, flags), n)
  {
    assert EntryOk(w, k) && FdOk(w, n);
    assert n !in w.returned && w.closed[n] == 0 && w.movedOut[n] == 0;
  }

  lemma CompleteKeepsOtherFd(w: World, k: nat, n: Serial, result: IoResult, flags: nat, m: Serial)
    requires TableInv(w) && FdInv(w) && (k, n) in w.inFlight && m != n
    ensures FdOk(DoComplete(w, k, n, result, flags), m)
  {
    CompleteKeepsOthersHeld(w, k, n, result, flags, m);
    assert EntryOk(w, k) && FdOk(w, m) && (m in w.ops ==> OpOk(w, m));
  }

  lemma CompleteKeepsFds(w: World, k: nat, n: Serial, result: IoResult, flags: nat)
    requires TableInv(w) && FdInv(w) && (k, n) in w.inFlight
    ensures FdInv(DoComplete(w, k, n, result, flags))
  {
    var t := DoComplete(w, k, n, result, flags);
    assert EntryOk(w, k);
    forall m
      ensures FdOk(t, m)
    {
      if m == n {
        CompleteKeepsFd(w, k, n, result, flags);
      } else {
        CompleteKeepsOtherFd(w, k, n, result, flags, m);
      }
    }
  }

  lemma CompleteKeepsData(w: World, k: nat, n: Serial, result: IoResult, flags: nat)
    requires TableInv(w) && DataInv(w) && (k, n) in w.inFlight
    ensures DataInv(DoComplete(w, k, n, result, flags))
  {
  }

  lemma PollKeepsTable(w: World, n: Serial, waker: Waker)
    requires TableInv(w) && n in w.ops && w.ops[n].data.Some?
    ensures TableInv(DoPoll(w, n, waker))
  {
    var t := DoPoll(w, n, waker);
    assert OpOk(w, n) && EntryOk(w, w.ops[n].index);
    forall j | j in t.table
      ensures EntryOk(t, j)
    {
      assert j in w.table ==> EntryOk(w, j);
    }
    forall m | m in t.ops
      ensures OpOk(t, m)
    {
      assert m in w.ops ==> OpOk(w, m);
    }
  }

  lemma PollKeepsFds(w: World, n: Serial, waker: Waker)
    requires TableInv(w) && FdInv(w) && n in w.ops && w.ops[n].data.Some?
    ensures FdInv(DoPoll(w, n, waker))
  {
    var t := DoPoll(w, n, waker);
    assert OpOk(w, n) && EntryOk(w, w.ops[n].index);
    forall m
      ensures FdOk(t, m)
    {
      assert FdOk(w, m) && (m in w.ops ==> OpOk(w, m));
    }
  }

  lemma PollKeepsData(w: World, n: Serial, waker: Waker)
    requires TableInv(w) && DataInv(w) && n in w.ops && w.ops[n].data.Some?
    ensures DataInv(DoPoll(w, n, waker))
  {
  }

  lemma DropKeepsTable(w: World, n: Serial)
    requires TableInv(w) && n in w.ops
    ensures TableInv(DoDrop(w, n))
  {
    var t := DoDrop(w, n);
    assert OpOk(w, n) && (w.ops[n].index in w.table ==> EntryOk(w, w.ops[n].index));
    forall j | j in t.table
      ensures EntryOk(t, j)
    {
      assert j in w.table ==> EntryOk(w, j);
    }
    forall m | m in t.ops
      ensures OpOk(t, m)
    {
      assert m in w.ops ==> OpOk(w, m);
    }
  }

  lemma DropKeepsFds(w: World, n: Serial)
    requires TableInv(w) && FdInv(w) && n in w.ops
    ensures FdInv(DoDrop(w, n))
  {
    var t := DoDrop(w, n);
    assert OpOk(w, n) && (w.ops[n].index in w.table ==> EntryOk(w, w.ops[n].index));
    forall m
      ensures FdOk(t, m)
    {
      assert FdOk(w, m) && (m in w.ops ==> OpOk(w, m));
    }
  }

  lemma DropKeepsData(w: World, n: Serial)
    requires TableInv(w) && DataInv(w) && n in w.ops
    ensures DataInv(DoDrop(w, n))
  {
    assert OpOk(w, n) && (w.ops[n].index in w.table ==> EntryOk(w, w.ops[n].index));
  }

  // ----- every run -----

  lemma SubmitKeepsAnswers(w: World, k: nat, isFd: bool)
    requires TableInv(w) && AnswerInv(w) && Enabled(w, Submit(k, isFd))
    ensures AnswerInv(DoSubmit(w, k, isFd))
  {
    var t := DoSubmit(w, k, isFd);
    forall j | j in t.table
      ensures EntryHolds(t, j)
    {
      assert j != k ==> EntryHolds(w, j) && EntryOk(w, j);
    }
  }

  lemma CompletedEntryHolds(w: World, k: nat, n: Serial, result: IoResult, flags: nat)
    requires TableInv(w) && AnswerInv(w) && (k, n) in w.inFlight && k in DoComplete(w, k, n, result, flags).table
    ensures var t := DoComplete(w, k, n, result, flags); k in t.serial && EntryHolds(t, k)
  {
    assert EntryOk(w, k) && EntryHolds(w, k);
    match w.table[k].lifecycle
    case Submitted =>
    case Waiting(_) =>
    case _ =>
  }

  lemma CompleteKeepsHolds(w: World, k: nat, n: Serial, result: IoResult, flags: nat, j: nat)
    requires TableInv(w) && AnswerInv(w) && (k, n) in w.inFlight && j in w.table && j != k
    ensures var t := DoComplete(w, k, n, result, flags); j in t.table && j in t.serial && EntryHolds(t, j)
  {
    assert w.serial[k] == n && EntryHolds(w, j);
  }

  lemma CompleteKeepsGot(w: World, k: nat, n: Serial, result: IoResult, flags: nat)
    requires TableInv(w) && AnswerInv(w) && (k, n) in w.inFlight
    ensures var t := DoComplete(w, k, n, result, flags);
      && (forall m :: m in t.ledger.got ==> IsAnswer(t, m, t.ledger.got[m]))
      && (forall p :: p in t.inFlight ==> p.1 !in t.ledger.answers)
  {
    assert EntryOk(w, k);
    forall m | m in w.ledger.got
      ensures m != n
    {
      assert IsAnswer(w, m, w.ledger.got[m]);
    }
  }

  lemma CompleteKeepsAnswers(w: World, k: nat, n: Serial, result: IoResult, flags: nat)
    requires TableInv(w) && AnswerInv(w) && (k, n) in w.inFlight
    ensures AnswerInv(DoComplete(w, k, n, result, flags))
  {
    var t := DoComplete(w, k, n, result, flags);
    assert EntryOk(w, k);
    CompleteKeepsGot(w, k, n, result, flags);
    forall j | j in t.table
      ensures EntryHolds(t, j)
    {
      if j == k {
        CompletedEntryHolds(w, k, n, result, flags);
      } else {
        CompleteKeepsHolds(w, k, n, result, flags, j);
      }
    }
  }

  lemma PollKeepsAnswers(w: World, n: Serial, waker: Waker)
    requires TableInv(w) && AnswerInv(w) && n in w.ops && w.ops[n].data.Some?
    ensures AnswerInv(DoPoll(w, n, waker))
  {
    var t := DoPoll(w, n, waker);
    assert OpOk(w, n) && EntryHolds(w, w.ops[n].index);
    forall j | j in t.table
      ensures EntryHolds(t, j)
    {
      assert EntryHolds(w, j);
    }
  }

  lemma DropKeepsAnswers(w: World, n: Serial)
    requires TableInv(w) && AnswerInv(w) && n in w.ops
    ensures AnswerInv(DoDrop(w, n))
  {
    var t := DoDrop(w, n);
    assert OpOk(w, n);
    forall j | j in t.table
      ensures EntryHolds(t, j)
    {
      assert EntryHolds(w, j);
    }
  }

  lemma StepKeepsInv(w: World, s: Step)
    requires Inv(w) && Enabled(w, s)
    ensures Inv(Apply(w, s))
  {
    match s
    case Submit(k, isFd) =>
      SubmitKeepsTable(w, k, isFd);
      SubmitKeepsFds(w, k, isFd);
      SubmitKeepsData(w, k, isFd);
      SubmitKeepsAnswers(w, k, isFd);
    case Complete(k, n, result, flags) =>
      CompleteKeepsTable(w, k, n, result, flags);
      CompleteKeepsFds(w, k, n, result, flags);
      CompleteKeepsData(w, k, n, result, flags);
      CompleteKeepsAnswers(w, k, n, result, flags);
    case PollOp(n, waker) =>
      PollKeepsTable(w, n, waker);
      PollKeepsFds(w, n, waker);
      PollKeepsData(w, n, waker);
      PollKeepsAnswers(w, n, waker);
    case DropOp(n) =>
      DropKeepsTable(w, n);
      DropKeepsFds(w, n);
      DropKeepsData(w, n);
      DropKeepsAnswers(w, n);
  }

  predicate Steps(w: World, s: Step, t: World) { Enabled(w, s) && t == Apply(w, s) }

  ghost predicate StepAt(states: seq<World>, steps: seq<Step>, i: nat) {
    i < |steps| && i + 1 < |states| && Steps(states[i], steps[i], states[i + 1])
  }

  ghost predicate Run(states: seq<World>, steps: seq<Step>) {
    && |states| == |steps| + 1 && states[0] == EMPTY_WORLD
    && (forall i: nat {:trigger StepAt(states, steps, i)} :: i < |steps| ==> StepAt(states, steps, i))
  }

  lemma {:induction false} RunReachesInv(states: seq<World>, steps: seq<Step>, i: nat, w: World)
    requires Run(states, steps) && i < |states| && w == states[i]
    ensures Inv(w)
  {
    if i == 0 {
      EmptyInv();
    } else {
      RunReachesInv(states, steps, i - 1, states[i - 1]);
      assert StepAt(states, steps, i - 1);
      StepKeepsInv(states[i - 1], steps[i - 1]);
    }
  }

  lemma RunKeepsInv(states: seq<World>, steps: seq<Step>, i: nat)
    requires Run(states, steps) && i < |states|
    ensures Inv(states[i])
  {
    RunReachesInv(states, steps, i, states[i]);
  }

  /** A key is in flight exactly while its entry is Submitted, Waiting or Ignored, for the submission that entry belongs
      to: a completion under a reused index can only be the new submission's. Nothing undefined is reached. */
  lemma TableAgreesWithKernel(states: seq<World>, steps: seq<Step>, i: nat)
    requires Run(states, steps) && i < |states|
    ensures var w := states[i];
      && !w.fault
      && (forall k, n :: (k, n) in w.inFlight <==>
            k in w.table && k in w.serial && w.serial[k] == n && !w.table[k].lifecycle.Completed?)
      && (forall k :: k in w.table ==> k < MIN_REVERSED_USERDATA)
  {
    RunKeepsInv(states, steps, i);
    var w := states[i];
    forall k, n
      ensures (k, n) in w.inFlight <==>
                k in w.table && k in w.serial && w.serial[k] == n && !w.table[k].lifecycle.Completed?
    {
      assert k in w.table ==> EntryOk(w, k);
    }
    forall k | k in w.table
      ensures k < MIN_REVERSED_USERDATA
    {
      assert EntryOk(w, k);
    }
  }

  /** While the kernel has a submission, its data is owned by the live Op or by the Ignored entry, and not dropped. */
  lemma DataOutlivesKernel(states: seq<World>, steps: seq<Step>, i: nat, k: nat, n: Serial)
    requires Run(states, steps) && i < |states| && (k, n) in states[i].inFlight
    ensures var w := states[i];
      && n !in w.freed
      && ((n in w.ops && w.ops[n].index == k && w.ops[n].data == Some(n))
          || (n !in w.ops && k in w.table && w.table[k].lifecycle == Ignored(Some(n))))
  {
    RunKeepsInv(states, steps, i);
    assert EntryOk(states[i], k);
    assert n in states[i].ops ==> OpOk(states[i], n);
  }

  /** An Op whose last poll was Pending is registered under that waker, or its completion has woken it. */
  lemma PendingPollerIsWoken(states: seq<World>, steps: seq<Step>, i: nat, n: Serial)
    requires Run(states, steps) && i < |states| && n in states[i].ops
    requires states[i].ops[n].lastPending.Some?
    ensures var w := states[i]; var op := w.ops[n];
      && op.index in w.table
      && (w.table[op.index].lifecycle == Waiting(op.lastPending.value)
          || (w.table[op.index].lifecycle.Completed? && (n, op.lastPending.value) in w.woken))
  {
    RunKeepsInv(states, steps, i);
    assert OpOk(states[i], n);
  }

  /** A descriptor the kernel returned is held in the table, or was moved out in one completion, or was closed, and only
      one of these, once; when no Op is left, it has left the table for good. */
  lemma DescriptorsConserved(states: seq<World>, steps: seq<Step>, i: nat, n: Serial)
    requires Run(states, steps) && i < |states|
    ensures var w := states[i];
      && w.closed[n] + w.movedOut[n] + (if Held(w, n) then 1 else 0) == (if n in w.returned then 1 else 0)
      && (n !in w.ops ==> w.closed[n] + w.movedOut[n] == if n in w.returned then 1 else 0)
  {
    RunKeepsInv(states, steps, i);
    assert FdOk(states[i], n);
  }

  /** What an Op is given is the kernel's answer to its own submission, whatever index that had and who had it before:
      the number and the flags, as a descriptor if the submission asked for one, or the error. */
  lemma OpGetsItsOwnAnswer(states: seq<World>, steps: seq<Step>, i: nat, n: Serial)
    requires Run(states, steps) && i < |states| && n in states[i].ledger.got
    ensures var l := states[i].ledger;
      && n in l.answers && n in l.kinds && l.got[n].1 == l.answers[n].1
      && match l.answers[n].0
         case Ok(v) => l.got[n].0.Number? && l.got[n].0.fd == v && l.got[n].0.isFd == l.kinds[n]
         case Err(e) => l.got[n].0 == Failed(e)
  {
    RunKeepsInv(states, steps, i);
  }

  // ----- what a step finds and leaves in the slab, in any reachable world -----

  ghost predicate Reachable(w: World) {
    exists states: seq<World>, steps: seq<Step> :: Run(states, steps) && states[|steps|] == w
  }

  lemma EmptyReachable()
    ensures Reachable(EMPTY_WORLD)
  {
    assert Run([EMPTY_WORLD], []);
  }

  lemma ReachableInv(w: World)
    requires Reachable(w)
    ensures Inv(w)
  {
    var states: seq<World>, steps: seq<Step> :| Run(states, steps) && states[|steps|] == w;
    RunReachesInv(states, steps, |steps|, w);
  }

  lemma StepReachable(w: World, s: Step)
    requires Reachable(w) && Enabled(w, s)
    ensures Reachable(Apply(w, s))
  {
    var states: seq<World>, steps: seq<Step> :| Run(states, steps) && states[|steps|] == w;
    var states', steps' := states + [Apply(w, s)], steps + [s];
    forall i: nat | i < |steps'|
      ensures StepAt(states', steps', i)
    {
      assert i < |steps| ==> StepAt(states, steps, i);
    }
    assert Run(states', steps');
  }

  lemma SubmitEffect(w: World, k: nat, isFd: bool)
    requires Reachable(w) && Enabled(w, Submit(k, isFd))
    ensures Reachable(DoSubmit(w, k, isFd))
    ensures DoSubmit(w, k, isFd).table == With(w.table, k, Entry(isFd, Submitted))
  {
    StepReachable(w, Submit(k, isFd));
  }

  function CompletedTable(t: map<nat, Entry>, k: nat, r: MaybeFd, flags: nat): map<nat, Entry>
    requires k in t
  {
    if t[k].lifecycle.Ignored? then Without(t, k) else With(t, k, t[k].(lifecycle := Completed(r, flags)))
  }

  lemma CompleteEffect(w: World, k: nat, n: Serial, result: IoResult, flags: nat)
    requires Reachable(w) && (k, n) in w.inFlight
    ensures var t := DoComplete(w, k, n, result, flags);
      && Reachable(t) && t.inFlight == w.inFlight - {(k, n)}
      && k in w.table && !w.table[k].lifecycle.Completed? && k < MIN_REVERSED_USERDATA
      && t.table == CompletedTable(w.table, k, NewResult(result, w.table[k].isFd), flags)
      && n in t.ledger.answers && t.ledger.answers[n] == (result, flags)
  {
    ReachableInv(w);
    assert EntryOk(w, k);
    StepReachable(w, Complete(k, n, result, flags));
  }

  function PolledTable(t: map<nat, Entry>, k: nat, waker: Waker): map<nat, Entry>
    requires k in t
  {
    if t[k].lifecycle.Completed? then Without(t, k) else With(t, k, t[k].(lifecycle := Waiting(waker)))
  }

  lemma PollEffect(w: World, n: Serial, waker: Waker)
    requires Reachable(w) && Enabled(w, PollOp(n, waker))
    ensures var k, t := w.ops[n].index, DoPoll(w, n, waker);
      && Reachable(t)
      && k in w.table && !w.table[k].lifecycle.Ignored? && k < MIN_REVERSED_USERDATA
      && t.table == PolledTable(w.table, k, waker)
      && (if w.table[k].lifecycle.Completed? then k !in t.table && n in t.ops && t.ops[n].index == USIZE_MAX
          else n in t.ops && t.ops[n].lastPending == Some(waker)
               && k in t.table && t.table[k].lifecycle == Waiting(waker))
      && (Held(w, n) ==> t.movedOut == w.movedOut + multiset{n} && n in t.returned
                         && t.returned[n] == w.table[k].lifecycle.result.fd)
      && (w.table[k].lifecycle.Completed? ==>
            IsAnswer(t, n, (w.table[k].lifecycle.result, w.table[k].lifecycle.flags)))
  {
    ReachableInv(w);
    assert OpOk(w, n) && FdOk(w, n) && EntryOk(w, w.ops[n].index) && EntryHolds(w, w.ops[n].index);
    StepReachable(w, PollOp(n, waker));
  }

  function DroppedTable(t: map<nat, Entry>, k: nat, data: Option<Serial>): map<nat, Entry>
    requires k in t
  {
    if t[k].lifecycle.Completed? then Without(t, k) else With(t, k, t[k].(lifecycle := Ignored(data)))
  }

  lemma DropEffect(w: World, n: Serial)
    requires Reachable(w) && Enabled(w, DropOp(n))
    ensures var op, t := w.ops[n], DoDrop(w, n);
      && Reachable(t) && n !in t.ops
      && (op.index == USIZE_MAX ==> t.table == w.table && !Held(w, n) && (op.index, n) !in t.inFlight)
      && (op.index != USIZE_MAX ==>
            && op.index in w.table && !w.table[op.index].lifecycle.Ignored? && op.index < MIN_REVERSED_USERDATA
            && t.table == DroppedTable(w.table, op.index, op.data)
            && ((op.index, n) in t.inFlight <==> !w.table[op.index].lifecycle.Completed?))
      && (Held(w, n) ==> n in w.returned && w.returned[n] == w.table[op.index].lifecycle.result.fd)
  {
    ReachableInv(w);
    assert OpOk(w, n) && FdOk(w, n) && (w.ops[n].index in w.table ==> EntryOk(w, w.ops[n].index));
    StepReachable(w, DropOp(n));
  }
}
