/** The state word of a task: five flag bits and a reference count packed into one 64-bit word
    (crates/monoio/src/task/state.rs).

    Snapshot is the unpacked view that the protocol in TaskProtocol.dfy works on; class State changes
    the packed word with the source's bit arithmetic and is proved to do what the Snapshot functions say. */
module TaskState {

  // The bits of the packed word, from the least significant up; the reference count lies above them.
  datatype Bit = RUNNING | COMPLETE | NOTIFIED | JOIN_INTEREST | JOIN_WAKER

  function Position(bit: Bit): nat {
    match bit
    case RUNNING => 0
    case COMPLETE => 1
    case NOTIFIED => 2
    case JOIN_INTEREST => 3
    case JOIN_WAKER => 4
  }

  function Weight(bit: Bit): nat {
    match bit
    case RUNNING => 1
    case COMPLETE => 2
    case NOTIFIED => 4
    case JOIN_INTEREST => 8
    case JOIN_WAKER => 16
  }

  const REF_COUNT_SHIFT: nat := 5
  const REF_ONE: nat := 32
  const INITIAL_STATE: nat := 2 * REF_ONE + Weight(JOIN_INTEREST) + Weight(NOTIFIED)

  const WORD_LIMIT: nat := 0x1_0000_0000_0000_0000
  const ISIZE_MAX: nat := 0x7FFF_FFFF_FFFF_FFFF

  datatype Snapshot = Snapshot(running: bool, complete: bool, notified: bool,
                               joinInterest: bool, joinWaker: bool, refs: nat)
  {
    predicate IsIdle() { !running && !complete }
  }

  const INITIAL_SNAPSHOT := Snapshot(false, false, true, true, false, 2)

  function ShiftRight(w: nat, n: nat): nat {
    if n == 0 then w else ShiftRight(w / 2, n - 1)
  }

  /** `w & bit == bit` */
  predicate Has(w: nat, bit: Bit) {
    ShiftRight(w, Position(bit)) % 2 == 1
  }

  function Unpack(w: nat): Snapshot {
    Snapshot(Has(w, RUNNING), Has(w, COMPLETE), Has(w, NOTIFIED), Has(w, JOIN_INTEREST), Has(w, JOIN_WAKER),
             ShiftRight(w, REF_COUNT_SHIFT))
  }

  function Flag(b: bool): nat { if b then 1 else 0 }

  function Pack(s: Snapshot): nat {
    Flag(s.running) + 2 * Flag(s.complete) + 4 * Flag(s.notified)
    + 8 * Flag(s.joinInterest) + 16 * Flag(s.joinWaker) + REF_ONE * s.refs
  }

  /** `w | bit` */
  function With(w: nat, bit: Bit): nat {
    if Has(w, bit) then w else w + Weight(bit)
  }

  /** `w & !bit` */
  function Without(w: nat, bit: Bit): (r: nat) {
    if Has(w, bit) then HasMeansAtLeast(w, bit); w - Weight(bit) else w
  }

  /** `w ^ bit` */
  function Flip(w: nat, bit: Bit): nat {
    if Has(w, bit) then Without(w, bit) else With(w, bit)
  }

  /** Reads a word bit by bit. */
  lemma Digits(w: nat) returns (d1: nat, d2: nat, d3: nat, d4: nat)
    ensures d1 == w / 2 && d2 == d1 / 2 && d3 == d2 / 2 && d4 == d3 / 2
    ensures ShiftRight(w, 0) == w && ShiftRight(w, 1) == d1 && ShiftRight(w, 2) == d2
    ensures ShiftRight(w, 3) == d3 && ShiftRight(w, 4) == d4 && ShiftRight(w, 5) == d4 / 2
  {
    d1 := w / 2;
    d2 := d1 / 2;
    d3 := d2 / 2;
    d4 := d3 / 2;
    assert ShiftRight(d4 / 2, 0) == d4 / 2;
    assert ShiftRight(d4, 1) == d4 / 2;
    assert ShiftRight(d3, 2) == d4 / 2 && ShiftRight(d3, 1) == d4;
    assert ShiftRight(d2, 3) == d4 / 2 && ShiftRight(d2, 2) == d4 && ShiftRight(d2, 1) == d3;
    assert ShiftRight(d1, 4) == d4 / 2 && ShiftRight(d1, 3) == d4 && ShiftRight(d1, 2) == d3 && ShiftRight(d1, 1) == d2;
  }

  /** Every word is the packing of the snapshot read from it. */
  lemma PackUnpack(w: nat)
    ensures Pack(Unpack(w)) == w
  {
    var d1, d2, d3, d4 := Digits(w);
  }

  /** Packing loses nothing. */
  lemma UnpackPack(s: Snapshot)
    ensures Unpack(Pack(s)) == s
  {
    var d1, d2, d3, d4 := Digits(Pack(s));
    assert d1 == Flag(s.complete) + 2 * Flag(s.notified) + 4 * Flag(s.joinInterest) + 8 * Flag(s.joinWaker)
                 + 16 * s.refs;
    assert d2 == Flag(s.notified) + 2 * Flag(s.joinInterest) + 4 * Flag(s.joinWaker) + 8 * s.refs;
    assert d3 == Flag(s.joinInterest) + 2 * Flag(s.joinWaker) + 4 * s.refs;
    assert d4 == Flag(s.joinWaker) + 2 * s.refs;
  }

  lemma HasMeansAtLeast(w: nat, bit: Bit)
    requires Has(w, bit)
    ensures w >= Weight(bit)
  {
    var d1, d2, d3, d4 := Digits(w);
  }

  // ----- the transitions, on snapshots -----

  function ToRunning(s: Snapshot): Snapshot { s.(running := true, notified := false) }

  function ToIdle(s: Snapshot): Snapshot { s.(running := false) }

  /** fetch_xor(RUNNING | COMPLETE) */
  function ToComplete(s: Snapshot): Snapshot { s.(running := !s.running, complete := !s.complete) }

  /** transition_to_notified; the second part says whether the caller must submit a Task. */
  function ToNotified(s: Snapshot): (Snapshot, bool) {
    if s.running then (s.(notified := true), false)
    else if s.complete || s.notified then (s, false)
    else (s.(notified := true), true)
  }

  /** transition_to_notified_without_submit; the second part is the source's `true` (nothing left to do). */
  function ToNotifiedWithoutSubmit(s: Snapshot): (Snapshot, bool) {
    if s.running then (s.(notified := true), true)
    else (s, s.complete || s.notified)
  }

  function RefInc(s: Snapshot): Snapshot { s.(refs := s.refs + 1) }

  function RefDec(s: Snapshot): Snapshot
    requires s.refs >= 1
  {
    s.(refs := s.refs - 1)
  }

  /** The process aborts when the word before an increment exceeds isize::MAX. */
  predicate RefIncAborts(s: Snapshot) { Pack(s) > ISIZE_MAX }

  // ----- the packed word -----

  function SetFlag(s: Snapshot, bit: Bit, b: bool): Snapshot {
    match bit
    case RUNNING => s.(running := b)
    case COMPLETE => s.(complete := b)
    case NOTIFIED => s.(notified := b)
    case JOIN_INTEREST => s.(joinInterest := b)
    case JOIN_WAKER => s.(joinWaker := b)
  }

  function GetFlag(s: Snapshot, bit: Bit): bool {
    match bit
    case RUNNING => s.running
    case COMPLETE => s.complete
    case NOTIFIED => s.notified
    case JOIN_INTEREST => s.joinInterest
    case JOIN_WAKER => s.joinWaker
  }

  lemma PackSetFlag(s: Snapshot, bit: Bit)
    ensures Pack(SetFlag(s, bit, true)) == Pack(s) + (if GetFlag(s, bit) then 0 else Weight(bit))
    ensures Pack(SetFlag(s, bit, false)) == Pack(s) - (if GetFlag(s, bit) then Weight(bit) else 0)
  {
    match bit
    case RUNNING =>
    case COMPLETE =>
    case NOTIFIED =>
    case JOIN_INTEREST =>
    case JOIN_WAKER =>
  }

  lemma HasIsFlag(w: nat, bit: Bit)
    ensures Has(w, bit) == GetFlag(Unpack(w), bit)
  {
  }

  /** Setting, clearing and flipping a bit changes that flag of the snapshot and nothing else. */
  lemma BitOperations(w: nat, bit: Bit)
    ensures Unpack(With(w, bit)) == SetFlag(Unpack(w), bit, true)
    ensures Unpack(Without(w, bit)) == SetFlag(Unpack(w), bit, false)
    ensures Unpack(Flip(w, bit)) == SetFlag(Unpack(w), bit, !Has(w, bit))
  {
    PackUnpack(w);
    var s := Unpack(w);
    HasIsFlag(w, bit);
    PackSetFlag(s, bit);
    assert With(w, bit) == Pack(SetFlag(s, bit, true)) && Without(w, bit) == Pack(SetFlag(s, bit, false));
    UnpackPack(SetFlag(s, bit, true));
    UnpackPack(SetFlag(s, bit, false));
  }

  /** One reference more or less never disturbs the flags. */
  lemma RefArithmetic(w: nat)
    ensures Unpack(w + REF_ONE) == RefInc(Unpack(w))
    ensures Unpack(w).refs >= 1 ==> w >= REF_ONE && Unpack(w - REF_ONE) == RefDec(Unpack(w))
  {
    PackUnpack(w);
    UnpackPack(RefInc(Unpack(w)));
    if Unpack(w).refs >= 1 {
      UnpackPack(RefDec(Unpack(w)));
    }
  }

  class State {
    var word: nat

    ghost function View(): Snapshot
      reads this
    {
      Unpack(word)
    }

    constructor ()
      ensures View() == INITIAL_SNAPSHOT && word == INITIAL_STATE
    {
      UnpackPack(INITIAL_SNAPSHOT);
      word := INITIAL_STATE;
    }

    method TransitionToRunning()
      requires View().notified && View().IsIdle()
      modifies this
      ensures View() == ToRunning(old(View())) == old(View()).(running := true, notified := false)
    {
      BitOperations(word, RUNNING);
      BitOperations(With(word, RUNNING), NOTIFIED);
      word := Without(With(word, RUNNING), NOTIFIED);
    }

    method TransitionToIdle() returns (notified: bool)
      requires View().running
      modifies this
      ensures View() == ToIdle(old(View())) == old(View()).(running := false)
      ensures notified == old(View()).notified
    {
      BitOperations(word, RUNNING);
      word := Without(word, RUNNING);
      notified := Has(word, NOTIFIED);
    }

    method TransitionToComplete() returns (snapshot: Snapshot)
      requires View().running && !View().complete
      modifies this
      ensures View() == snapshot == ToComplete(old(View())) == old(View()).(running := false, complete := true)
    {
      BitOperations(word, RUNNING);
      BitOperations(Flip(word, RUNNING), COMPLETE);
      word := Flip(Flip(word, RUNNING), COMPLETE);
      snapshot := Unpack(word);
    }

    method TransitionToNotified() returns (submit: bool)
      modifies this
      ensures (View(), submit) == ToNotified(old(View()))
      ensures View() == old(View()).(notified := old(View()).notified || old(View()).running || submit)
      ensures submit == (!old(View()).running && !old(View()).complete && !old(View()).notified)
    {
      BitOperations(word, NOTIFIED);
      if Has(word, RUNNING) {
        word := With(word, NOTIFIED);
        submit := false;
      } else if Has(word, COMPLETE) || Has(word, NOTIFIED) {
        submit := false;
      } else {
        word := With(word, NOTIFIED);
        submit := true;
      }
    }

    method TransitionToNotifiedWithoutSubmit() returns (handled: bool)
      modifies this
      ensures (View(), handled) == ToNotifiedWithoutSubmit(old(View()))
      ensures View() == old(View()).(notified := old(View()).notified || old(View()).running)
      ensures handled == (old(View()).running || old(View()).complete || old(View()).notified)
    {
      BitOperations(word, NOTIFIED);
      if Has(word, RUNNING) {
        word := With(word, NOTIFIED);
        handled := true;
      } else {
        handled := Has(word, COMPLETE) || Has(word, NOTIFIED);
      }
    }

    method DropJoinHandleFast() returns (ok: bool)
      modifies this
      ensures ok == (old(View()) == INITIAL_SNAPSHOT)
      ensures View() == if ok then old(View()).(joinInterest := false, refs := 1) else old(View())
    {
      UnpackPack(INITIAL_SNAPSHOT);
      PackUnpack(word);
      BitOperations(INITIAL_STATE - REF_ONE, JOIN_INTEREST);
      RefArithmetic(INITIAL_STATE);
      ok := word == INITIAL_STATE;
      if ok {
        word := Without(INITIAL_STATE - REF_ONE, JOIN_INTEREST);
      }
    }

    method UnsetJoinInterested() returns (ok: bool)
      requires View().joinInterest
      modifies this
      ensures ok == !old(View()).complete
      ensures View() == if ok then old(View()).(joinInterest := false) else old(View())
    {
      BitOperations(word, JOIN_INTEREST);
      ok := !Has(word, COMPLETE);
      if ok {
        word := Without(word, JOIN_INTEREST);
      }
    }

    method SetJoinWaker() returns (ok: bool)
      requires View().joinInterest && !View().joinWaker
      modifies this
      ensures ok == !old(View()).complete
      ensures View() == if ok then old(View()).(joinWaker := true) else old(View())
    {
      BitOperations(word, JOIN_WAKER);
      ok := !Has(word, COMPLETE);
      if ok {
        word := With(word, JOIN_WAKER);
      }
    }

    method UnsetWaker() returns (ok: bool)
      requires View().joinInterest && View().joinWaker
      modifies this
      ensures ok == !old(View()).complete
      ensures View() == if ok then old(View()).(joinWaker := false) else old(View())
    {
      BitOperations(word, JOIN_WAKER);
      ok := !Has(word, COMPLETE);
      if ok {
        word := Without(word, JOIN_WAKER);
      }
    }

    /** fetch_add(REF_ONE): wraps at the machine word, and aborts long before it can. */
    method RefIncrement() returns (abort: bool)
      requires word < WORD_LIMIT
      modifies this
      ensures word < WORD_LIMIT && abort == (old(word) > 0x7FFF_FFFF_FFFF_FFFF) == RefIncAborts(old(View()))
      ensures !abort ==> View() == RefInc(old(View())) == old(View()).(refs := old(View()).refs + 1)
    {
      PackUnpack(word);
      RefArithmetic(word);
      var prev := word;
      word := if word + REF_ONE < WORD_LIMIT then word + REF_ONE else word + REF_ONE - WORD_LIMIT;
      abort := prev > ISIZE_MAX;
    }

    method RefDecrement() returns (last: bool)
      requires View().refs >= 1
      modifies this
      ensures View() == RefDec(old(View())) == old(View()).(refs := old(View()).refs - 1)
      ensures last == (View().refs == 0)
    {
      RefArithmetic(word);
      var prev := Unpack(word);
      word := word - REF_ONE;
      last := prev.refs == 1;
    }
  }

  // ----- the two compare-and-swap loops, against other threads -----

  datatype CasResult<T> =
    | StillLooping
    | Stored(output: T, at: nat, next: nat)
    | Declined(output: T, at: nat)

  /** The value a loop holds after `k` accesses that did not succeed is the one it saw last. */
  ghost predicate TookEffectAt<T>(seen: seq<nat>, f: nat -> (T, bool, nat), r: CasResult<T>) {
    match r
    case StillLooping => true
    case Stored(output, at, next) => 0 < at < |seen| && f(seen[at]) == (output, true, next)
    case Declined(output, at) => at < |seen| && f(seen[at]).0 == output && !f(seen[at]).1
  }

  /** fetch_update and fetch_update_action: `f` answers with an output, whether to store, and the word to store.
      `seen` lists the word as other threads left it at each atomic access of this one: first the load, then every
      compare-exchange. However the others interleave, the loop has the effect of applying `f` once, to the word as it
      was at one single access: the successful compare-exchange, or the read on which `f` declined. */
  method FetchUpdate<T>(seen: seq<nat>, f: nat -> (T, bool, nat)) returns (r: CasResult<T>)
    requires |seen| > 0
    ensures TookEffectAt(seen, f, r)
    ensures r.StillLooping? ==> forall j, k :: 0 <= j < k < |seen| && k == j + 1 ==> seen[k] != seen[j]
    ensures r.Stored? ==> forall j, k :: 0 <= j < k < r.at && k == j + 1 ==> seen[k] != seen[j] && f(seen[j]).1
  {
    var curr := seen[0];
    var access := 0;
    while true
      invariant access < |seen| && curr == seen[access]
      invariant forall j, k :: 0 <= j < k <= access && k == j + 1 ==> seen[k] != seen[j] && f(seen[j]).1
      decreases |seen| - access
    {
      var (output, store, next) := f(curr);
      if !store {
        return Declined(output, access);
      }
      if access + 1 == |seen| {
        return StillLooping;
      }
      access := access + 1;
      if seen[access] == curr {
        return Stored(output, access, next);
      }
      curr := seen[access];
    }
  }
}
