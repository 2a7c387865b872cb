/** The wrapper that gives an owned-buffer stream the poll interface (crates/monoio-compat/src/safe_wrapper.rs), its
    buffer (buf.rs) and its reusable futures (box_future.rs). */
module StreamWrapper {
  import opened Prelude

  /** A buffer whose bytes from `offset` to `init` are data. */
  class Buf {
    const data: array<byte>
    var offset: nat
    var init: nat

    predicate Valid()
      reads this
    {
      offset <= init <= data.Length
    }

    ghost function Contents(): seq<byte>
      requires Valid()
      reads this, data
    {
      data[offset..init]
    }

    constructor (size: nat)
      ensures Valid() && Contents() == [] && data.Length == size && fresh(data) && offset == 0
    {
      data := new byte[size](_ => 0);
      offset, init := 0, 0;
    }

    predicate IsEmpty()
      reads this
    {
      offset == init
    }

    method BufToRead(max: nat) returns (s: seq<byte>)
      requires Valid()
      ensures s == Contents()[..Min(max, |Contents()|)]
    {
      var len := Min(max, init - offset);
      s := data[offset..offset + len];
    }

    method AdvanceOffset(len: nat)
      requires Valid() && len <= |Contents()|
      modifies this
      ensures Valid() && Contents() == old(Contents())[len..]
    {
      offset := offset + len;
    }

    method SetInit(n: nat)
      requires n <= data.Length
      modifies this
      ensures Valid() && Contents() == data[..n] && offset == 0
    {
      offset, init := 0, n;
    }

    /** Copies bytes to the front and makes them the data. */
    method Fill(bytes: seq<byte>)
      requires |bytes| <= data.Length
      modifies this, data
      ensures Valid() && Contents() == bytes && offset == 0
    {
      forall i | 0 <= i < |bytes| {
        data[i] := bytes[i];
      }
      SetInit(|bytes|);
    }
  }

  /** One thing the wrapped stream can do when it is polled. */
  datatype Outcome = NotYet | Move(most: nat) | Interrupt | Break(code: int)

  /** How one poll comes out, with these outcomes to come. */
  predicate Answers<T>(script: seq<Outcome>, r: Poll<Result<T>>) {
    if script == [] then r.Ready? && r.value.Ok?
    else
      match script[0]
      case NotYet => r.Pending?
      case Move(_) => r.Ready? && r.value.Ok?
      case Interrupt => r == Ready(Interrupted)
      case Break(code) => r == Ready(Fail(code))
  }

  function Rest(script: seq<Outcome>): seq<Outcome> { if script == [] then [] else script[1..] }

  function After(seen: seq<Outcome>, script: seq<Outcome>): seq<Outcome> {
    if script == [] then seen else seen + [script[0]]
  }

  /** What is done by `r` when something has ended early: not yet, or with an error. */
  datatype Halt = Going | Waits | Fails(code: int)

  function HaltOf<T>(r: Poll<Result<T>>): Halt {
    if r.Pending? then Waits else if r.value.Fail? then Fails(r.value.code) else Going
  }

  /** Outcomes have come between `before` and `after`, and only the last can halt what needed them: `h` is what it says.
      An outcome that moves nothing may count as an error. */
  predicate HaltedBy(before: seq<Outcome>, after: seq<Outcome>, h: Halt) {
    && before <= after
    && (forall k :: |before| <= k < |after| - 1 ==> !after[k].NotYet? && !after[k].Break?)
    && if |before| == |after| then h.Going?
       else
         match after[|after| - 1]
         case NotYet => h.Waits?
         case Break(code) => h == Fails(code)
         case Move(most) => h.Going? || (most == 0 && h == Fails(WRITE_ZERO))
         case Interrupt => h.Going?
  }

  /** A write that takes nothing is an error. */
  predicate ZeroFails(before: seq<Outcome>, after: seq<Outcome>, r: Poll<Result<nat>>) {
    forall k :: |before| <= k < |after| && after[k] == Move(0) ==> r == Ready(Fail(WRITE_ZERO))
  }

  lemma GoesOn(a: seq<Outcome>, b: seq<Outcome>, c: seq<Outcome>, h: Halt)
    requires HaltedBy(a, b, Going) && HaltedBy(b, c, h)
    ensures HaltedBy(a, c, h)
  {
  }

  lemma OneOutcome<T>(seen: seq<Outcome>, script: seq<Outcome>, r: Poll<Result<T>>)
    requires Answers(script, r)
    ensures HaltedBy(seen, After(seen, script), HaltOf(r))
  {
  }

  /** An interruption that is passed on is the last outcome. */
  predicate Interrupts<T>(before: seq<Outcome>, after: seq<Outcome>, r: Poll<Result<T>>) {
    r == Ready(Interrupted) ==> |before| < |after| && after[|after| - 1].Interrupt?
  }

  /** The wrapped stream: what is left to read, what has been written and how much of that flushed, and what it will do;
      when that is used up, it does all it is asked. */
  class Stream {
    var rest: seq<byte>
    var written: seq<byte>
    var flushed: nat
    var isShutdown: bool
    var script: seq<Outcome>
    ghost var seen: seq<Outcome>  // the outcomes so far

    constructor (rest: seq<byte>, script: seq<Outcome>)
      ensures this.rest == rest && this.script == script && written == [] && flushed == 0 && !isShutdown
    {
      this.rest, this.script, seen := rest, script, [];
      written, flushed, isShutdown := [], 0, false;
    }

    method NextOutcome() returns (o: Option<Outcome>)
      modifies this`script, this`seen
      ensures script == Rest(old(script))
      ensures o == (if old(script) == [] then None else Some(old(script)[0])) && seen == After(old(seen), old(script))
    {
      if script == [] {
        return None;
      }
      o := Some(script[0]);
      script, seen := script[1..], seen + [script[0]];
    }

    /** The future of `read` into `buf`: nothing is read only at the end of the stream or into a buffer without room. */
    method PollRead(buf: Buf) returns (r: Poll<Result<nat>>)
      requires buf.Valid() && buf.IsEmpty()
      modifies this`rest, this`script, this`seen, buf, buf.data
      ensures buf.Valid()
      ensures r.Ready? && r.value.Ok? ==> old(rest) == buf.Contents() + rest && r.value.value == |buf.Contents()|
      ensures r.Ready? && r.value == Ok(0) ==> buf.data.Length == 0 || rest == []
      ensures r.Pending? || !r.value.Ok? ==> buf.IsEmpty() && rest == old(rest)
      ensures Answers(old(script), r) && script == Rest(old(script))
    {
      var o := NextOutcome();
      var most := buf.data.Length;
      match o {
        case Some(NotYet) => return Pending;
        case Some(Interrupt) => return Ready(Interrupted);
        case Some(Break(code)) => return Ready(Fail(code));
        case Some(Move(m)) => most := if m == 0 then 1 else m;
        case None =>
      }
      var n := Min(Min(most, buf.data.Length), |rest|);
      buf.Fill(rest[..n]);
      rest := rest[n..];
      r := Ready(Ok(n));
    }

    /** The future of `write_all` of `buf`, which has got as far as `sent`. */
    method PollWriteAll(buf: Buf, sent: nat) returns (r: Poll<Result<nat>>, sent': nat)
      requires buf.Valid() && sent <= |buf.Contents()|
      modifies this`written, this`script, this`seen
      ensures sent <= sent' <= |buf.Contents()| && written == old(written) + buf.Contents()[sent..sent']
      ensures r.Ready? && r.value.Ok? ==> sent' == |buf.Contents()| && r.value.value == sent'
      ensures r.Ready? ==> !r.value.Interrupted?
      ensures old(script) == [] ==> script == [] && r.Ready? && r.value.Ok?
      ensures HaltedBy(old(seen), seen, HaltOf(r)) && ZeroFails(old(seen), seen, r)
    {
      var bytes := buf.data[buf.offset..buf.init];
      sent' := sent;
      while sent' < |bytes|
        invariant sent <= sent' <= |bytes| && written == old(written) + bytes[sent..sent']
        invariant (old(script) == [] ==> script == []) && HaltedBy(old(seen), seen, Going)
        invariant ZeroFails(old(seen), seen, Pending)
        decreases |script|, |bytes| - sent'
      {
        var o := NextOutcome();
        match o {
          case Some(NotYet) => return Pending, sent';
          case Some(Interrupt) => continue;
          case Some(Break(code)) => return Ready(Fail(code)), sent';
          case Some(Move(0)) => return Ready(Fail(WRITE_ZERO)), sent';
          case _ =>
        }
        var n := if o.Some? then Min(o.value.most, |bytes| - sent') else |bytes| - sent';
        written := written + bytes[sent'..sent' + n];
        Advance(bytes, sent, sent', n);
        sent' := sent' + n;
      }
      r := Ready(Ok(|bytes|));
    }

    /** The future of `flush`, made when `mark` bytes had been written: it flushes those, if it succeeds. */
    method PollFlush(mark: nat) returns (r: Poll<Result<()>>)
      modifies this`flushed, this`script, this`seen
      ensures Answers(old(script), r) && script == Rest(old(script))
      ensures seen == After(old(seen), old(script))
      ensures r == Ready(Ok(())) <==> old(script) == [] || old(script)[0].Move?
      ensures flushed == if r == Ready(Ok(())) && old(flushed) < mark then mark else old(flushed)
    {
      var o := NextOutcome();
      match o {
        case Some(NotYet) => return Pending;
        case Some(Interrupt) => return Ready(Interrupted);
        case Some(Break(code)) => return Ready(Fail(code));
        case _ =>
      }
      flushed := if flushed < mark then mark else flushed;
      r := Ready(Ok(()));
    }

    method PollShutdown() returns (r: Poll<Result<()>>)
      modifies this`isShutdown, this`script, this`seen
      ensures Answers(old(script), r) && script == Rest(old(script))
      ensures seen == After(old(seen), old(script))
      ensures r == Ready(Ok(())) <==> old(script) == [] || old(script)[0].Move?
      ensures isShutdown == (old(isShutdown) || r == Ready(Ok(())))
    {
      var o := NextOutcome();
      match o {
        case Some(NotYet) => return Pending;
        case Some(Interrupt) => return Ready(Interrupted);
        case Some(Break(code)) => return Ready(Fail(code));
        case _ =>
      }
      isShutdown := true;
      r := Ready(Ok(()));
    }
  }

  /** A reusable future: what the armed one works on, and whether it is armed. It is polled only while it is. */
  class MaybeArmedBoxFuture<F> {
    var slot: Option<F>
    var armed: bool

    constructor ()
      ensures !armed && slot == None
    {
      slot, armed := None, false;
    }

    method ArmFuture(f: F)
      modifies this
      ensures armed && slot == Some(f)
    {
      armed, slot := true, Some(f);
    }

    method Done()
      modifies this`armed
      ensures !armed
    {
      armed := false;
    }
  }

  lemma Advance(bytes: seq<byte>, a: nat, b: nat, n: nat)
    requires a <= b && b + n <= |bytes|
    ensures bytes[a..b] + bytes[b..b + n] == bytes[a..b + n]
  {
  }

  lemma HandOver(source: seq<byte>, delivered: seq<byte>, buffered: seq<byte>, rest: seq<byte>, n: nat)
    requires source == delivered + (buffered + rest) && n <= |buffered|
    ensures source == (delivered + buffered[..n]) + (buffered[n..] + rest)
  {
  }

  /** The caller's buffer of poll_read. */
  class ReadBuf {
    var filled: seq<byte>
    var remaining: nat

    constructor (size: nat)
      ensures filled == [] && remaining == size
    {
      filled, remaining := [], size;
    }

    method PutSlice(s: seq<byte>)
      requires |s| <= remaining
      modifies this
      ensures filled == old(filled) + s && remaining == old(remaining) - |s|
    {
      filled, remaining := filled + s, remaining - |s|;
    }
  }

  class StreamWrapper {
    const stream: Stream
    const readFut: MaybeArmedBoxFuture<Buf>
    const writeFut: MaybeArmedBoxFuture<(Buf, nat)>  // the buffer and how much of it has been written
    const flushFut: MaybeArmedBoxFuture<nat>         // how much had been written when it was made
    const shutdownFut: MaybeArmedBoxFuture<nat>
    var readBuf: Option<Buf>
    var writeBuf: Option<Buf>
    ghost const rbuf: Buf
    ghost const wbuf: Buf
    ghost const source: seq<byte>    // all that there was to read
    ghost var delivered: seq<byte>   // handed to the callers of poll_read
    ghost var accepted: seq<byte>    // taken from the callers of poll_write
    ghost var failed: bool           // a write has ended with an error

    ghost predicate Separate() {
      && rbuf != wbuf && rbuf.data != wbuf.data
      && (readFut as object) != writeFut && (readFut as object) != flushFut && (readFut as object) != shutdownFut
      && (writeFut as object) != flushFut && (writeFut as object) != shutdownFut && flushFut != shutdownFut
    }

    /** The buffer is in its slot or in the armed future, and the bytes of the source are delivered, buffered or to
        come. */
    ghost predicate ReadOk()
      reads this, stream, rbuf, rbuf.data, readFut
    {
      && rbuf.Valid()
      && (if readFut.armed then readBuf == None && readFut.slot == Some(rbuf) && rbuf.IsEmpty()
          else readBuf == Some(rbuf))
      && source == delivered + (rbuf.Contents() + stream.rest)
    }

    /** What the armed write has not written yet. */
    ghost function Unsent(): seq<byte>
      reads this, wbuf, wbuf.data, writeFut
    {
      if writeFut.armed && writeFut.slot.Some? && wbuf.Valid() && writeFut.slot.value.1 <= |wbuf.Contents()|
      then wbuf.Contents()[writeFut.slot.value.1..] else []
    }

    ghost predicate WriteOk()
      reads this, stream, wbuf, wbuf.data, writeFut
    {
      && wbuf.Valid()
      && (if writeFut.armed then
            writeBuf == None && writeFut.slot.Some? && writeFut.slot.value.0 == wbuf
            && writeFut.slot.value.1 <= |wbuf.Contents()|
          else writeBuf == Some(wbuf))
      && (!failed ==> accepted == stream.written + Unsent())
    }

    /** Nothing is flushed, or about to be, that has not been written. */
    ghost predicate FlushOk()
      reads this, stream, flushFut, shutdownFut
    {
      && stream.flushed <= |stream.written|
      && (flushFut.armed ==> flushFut.slot.Some? && flushFut.slot.value <= |stream.written|)
      && (shutdownFut.armed ==> shutdownFut.slot.Some?)
    }

    ghost predicate Valid()
      reads this, stream, rbuf, rbuf.data, readFut, wbuf, wbuf.data, writeFut, flushFut, shutdownFut
    {
      Separate() && ReadOk() && WriteOk() && FlushOk()
    }

    constructor (stream: Stream, readBuffer: nat, writeBuffer: nat)
      requires stream.written == [] && stream.flushed == 0
      ensures Valid() && this.stream == stream && source == stream.rest && delivered == [] && accepted == [] && !failed
      ensures !readFut.armed && !writeFut.armed && !flushFut.armed && !shutdownFut.armed
      ensures fresh(readFut) && fresh(writeFut) && fresh(flushFut) && fresh(shutdownFut)
      ensures fresh(rbuf) && fresh(rbuf.data) && fresh(wbuf) && fresh(wbuf.data)
      ensures rbuf.data.Length == readBuffer && wbuf.data.Length == writeBuffer
    {
      var r := new Buf(readBuffer);
      var w := new Buf(writeBuffer);
      this.stream := stream;
      readFut := new MaybeArmedBoxFuture();
      writeFut := new MaybeArmedBoxFuture();
      flushFut := new MaybeArmedBoxFuture();
      shutdownFut := new MaybeArmedBoxFuture();
      readBuf, writeBuf, rbuf, wbuf := Some(r), Some(w), r, w;
      source, delivered, accepted, failed := stream.rest, [], [], false;
    }

    // ----- reading -----

    /** Polls the armed read; the buffer comes back into its slot when it is done. */
    method PollReadFuture() returns (r: Poll<Result<nat>>)
      requires Separate() && ReadOk() && readFut.armed
      modifies this`readBuf, readFut, rbuf, rbuf.data, stream`rest, stream`script, stream`seen
      ensures ReadOk()
      ensures r.Pending? <==> readFut.armed
      ensures r.Ready? && r.value.Ok? ==> r.value.value == |rbuf.Contents()|
      ensures r.Ready? && r.value == Ok(0) ==> rbuf.data.Length == 0 || stream.rest == []
      ensures r.Ready? && !r.value.Ok? ==> rbuf.IsEmpty()
      ensures Answers(old(stream.script), r) && stream.script == Rest(old(stream.script))
    {
      var buf := readFut.slot.value;
      r := stream.PollRead(buf);
      if r.Ready? {
        readFut.Done();
        readBuf := Some(buf);
      }
    }

    /** Hands over what the caller has room for. */
    method CopyOut(buf: ReadBuf)
      requires Separate() && ReadOk() && !readFut.armed
      modifies this`delivered, rbuf, buf
      ensures ReadOk() && !readFut.armed
      ensures var n := Min(old(buf.remaining), |old(rbuf.Contents())|);
        && buf.filled == old(buf.filled) + old(rbuf.Contents())[..n]
        && delivered == old(delivered) + old(rbuf.Contents())[..n]
        && rbuf.Contents() == old(rbuf.Contents())[n..]
    {
      var readBufMut := readBuf.value;
      var ourBuf := readBufMut.BufToRead(buf.remaining);
      ghost var contents := rbuf.Contents();
      HandOver(source, delivered, contents, stream.rest, |ourBuf|);
      buf.PutSlice(ourBuf);
      readBufMut.AdvanceOffset(|ourBuf|);
      delivered := delivered + ourBuf;
    }

    /** On Ready(Ok), the next bytes of the source have been put into the caller's buffer: none only if it was full,
        the read buffer has no room at all, or the source is at its end. Otherwise nothing has been put, and nothing
        is lost. */
    method PollRead(buf: ReadBuf) returns (r: Poll<Result<()>>, ghost put: seq<byte>)
      requires Valid()
      modifies this`delivered, this`readBuf, readFut, rbuf, rbuf.data, stream`rest, stream`script, stream`seen, buf
      ensures Valid()
      ensures buf.filled == old(buf.filled) + put && delivered == old(delivered) + put
      ensures r == Ready(Ok(())) && put == [] ==>
                old(buf.remaining) == 0 || rbuf.data.Length == 0 || delivered == source
      ensures r == Ready(Ok(())) ==> |put| == old(buf.remaining) || rbuf.IsEmpty()
      ensures r != Ready(Ok(())) ==> put == []
      ensures r.Pending? ==> readFut.armed
      ensures if !old(readFut.armed) && !old(rbuf.IsEmpty())
              then r == Ready(Ok(())) && stream.script == old(stream.script)
              else Answers(old(stream.script), r) && stream.script == Rest(old(stream.script))
    {
      put := [];
      ghost var asked := false;
      while true
        invariant Valid() && buf.filled == old(buf.filled) && buf.remaining == old(buf.remaining)
        invariant delivered == old(delivered)
        invariant !asked ==>
                    && stream.script == old(stream.script) && readFut.armed == old(readFut.armed)
                    && rbuf.IsEmpty() == old(rbuf.IsEmpty())
        invariant asked ==>
                    && !readFut.armed && !rbuf.IsEmpty() && (old(readFut.armed) || old(rbuf.IsEmpty()))
                    && Answers(old(stream.script), Ready(Ok(()))) && stream.script == Rest(old(stream.script))
        decreases !asked, readFut.armed
      {
        if !readFut.armed {
          if !readBuf.value.IsEmpty() {
            put := HandOut(buf);
            return Ready(Ok(())), put;
          }
          ArmRead();
        }
        var polled := PollReadFuture();
        asked := true;
        match polled {
          case Pending => return Pending, [];
          case Ready(Fail(code)) => return Ready(Fail(code)), [];
          case Ready(Interrupted) => return Ready(Interrupted), [];
          case Ready(Ok(n)) =>
            if n == 0 {
              return Ready(Ok(())), [];
            }
        }
      }
    }

    method ArmRead()
      requires Separate() && ReadOk() && !readFut.armed && rbuf.IsEmpty()
      modifies this`readBuf, readFut
      ensures ReadOk() && readFut.armed
    {
      var taken := readBuf.value;
      readBuf := None;
      readFut.ArmFuture(taken);
    }

    method HandOut(buf: ReadBuf) returns (ghost put: seq<byte>)
      requires Separate() && ReadOk() && !readFut.armed && !rbuf.IsEmpty()
      modifies this`delivered, rbuf, buf
      ensures ReadOk() && !readFut.armed && (put == [] ==> old(buf.remaining) == 0)
      ensures |put| == old(buf.remaining) || rbuf.IsEmpty()
      ensures buf.filled == old(buf.filled) + put && delivered == old(delivered) + put
      ensures put == old(rbuf.Contents())[..Min(old(buf.remaining), |old(rbuf.Contents())|)]
    {
      put := rbuf.Contents()[..Min(buf.remaining, |rbuf.Contents()|)];
      CopyOut(buf);
    }

    // ----- writing -----

    /** Polls the armed write; the buffer comes back, emptied, when it is done. */
    method PollWriteFuture() returns (r: Poll<Result<nat>>)
      requires Separate() && WriteOk() && writeFut.armed
      modifies this`writeBuf, this`failed, writeFut, wbuf, stream`written, stream`script, stream`seen
      ensures WriteOk()
      ensures r.Pending? <==> writeFut.armed
      ensures failed == (old(failed) || (r.Ready? && r.value.Fail?)) && (r.Ready? ==> !r.value.Interrupted?)
      ensures |old(stream.written)| <= |stream.written|
      ensures old(stream.script) == [] ==> stream.script == [] && r.Ready? && r.value.Ok?
      ensures HaltedBy(old(stream.seen), stream.seen, HaltOf(r)) && ZeroFails(old(stream.seen), stream.seen, r)
    {
      var (buf, sent) := writeFut.slot.value;
      ghost var contents := buf.Contents();
      var sent';
      r, sent' := stream.PollWriteAll(buf, sent);
      assert contents[sent..] == contents[sent..sent'] + contents[sent'..];
      if r.Ready? {
        writeFut.Done();
        failed := failed || r.value.Fail?;
        buf.SetInit(0);
        writeBuf := Some(buf);
      } else {
        writeFut.slot := Some((buf, sent'));
      }
    }

    /** Moves the bytes into the write buffer and arms their write. */
    method ArmWrite(bytes: seq<byte>)
      requires Separate() && WriteOk() && !writeFut.armed && |bytes| <= wbuf.data.Length
      modifies this`writeBuf, this`accepted, writeFut, wbuf, wbuf.data
      ensures WriteOk() && writeFut.armed && accepted == old(accepted) + bytes
    {
      var ownedBuf := writeBuf.value;
      writeBuf := None;
      ownedBuf.Fill(bytes);
      writeFut.ArmFuture((ownedBuf, 0));
      accepted := accepted + bytes;
    }

    /** Accepts as many bytes as fit the write buffer once the write before is done. They may still be on their way. */
    method PollWrite(data: seq<byte>) returns (r: Poll<Result<nat>>)
      requires Valid()
      modifies this`writeBuf, this`failed, this`accepted, writeFut, wbuf, wbuf.data
      modifies stream`written, stream`script, stream`seen
      ensures Valid()
      ensures r.Ready? && r.value.Ok? ==>
                && r.value.value == Min(|data|, wbuf.data.Length) && accepted == old(accepted) + data[..r.value.value]
                && failed == old(failed)
      ensures r.Pending? ==> writeFut.armed && old(writeFut.armed) && accepted == old(accepted) && failed == old(failed)
      ensures r.Ready? && !r.value.Ok? ==> failed && !writeFut.armed
      ensures old(stream.script) == [] && data != [] ==>
                stream.script == [] && r.Ready? && r.value.Ok? && !writeFut.armed
      ensures data == [] ==> r == Ready(Ok(0)) && stream.script == old(stream.script)
      ensures data != [] ==>
                && r != Ready(Interrupted)
                && HaltedBy(old(stream.seen), stream.seen,
                            if r.Ready? && r.value.Ok? && writeFut.armed then Waits else HaltOf(r))
    {
      if data == [] {
        return Ready(Ok(0));
      }
      if writeFut.armed {
        var before := PollWriteFuture();
        match before {
          case Pending => return Pending;
          case Ready(Fail(code)) => return Ready(Fail(code));
          case _ =>
        }
      }
      ghost var seen := stream.seen;
      r := WriteNow(data);
      GoesOn(old(stream.seen), seen, stream.seen, if r.value.Ok? && writeFut.armed then Waits else HaltOf(r));
    }

    /** Arms the write of as many bytes as fit, and polls it once. */
    method WriteNow(data: seq<byte>) returns (r: Poll<Result<nat>>)
      requires Separate() && WriteOk() && !writeFut.armed
      modifies this`writeBuf, this`failed, this`accepted, writeFut, wbuf, wbuf.data
      modifies stream`written, stream`script, stream`seen
      ensures WriteOk() && |old(stream.written)| <= |stream.written| && r.Ready?
      ensures failed == (old(failed) || r.value.Fail?) && (!r.value.Ok? ==> r.value.Fail? && !writeFut.armed)
      ensures r.value.Ok? ==>
                r.value.value == Min(|data|, wbuf.data.Length) && accepted == old(accepted) + data[..r.value.value]
      ensures old(stream.script) == [] ==> stream.script == [] && r.value.Ok? && !writeFut.armed
      ensures HaltedBy(old(stream.seen), stream.seen, if r.value.Ok? && writeFut.armed then Waits else HaltOf(r))
      ensures ZeroFails(old(stream.seen), stream.seen, r)
    {
      var len := Min(|data|, writeBuf.value.data.Length);
      ArmWrite(data[..len]);
      var now := PollWriteFuture();
      if now.Ready? && now.value.Fail? {
        return now;
      }
      r := Ready(Ok(len));
    }

    /** Waits for the write in flight; Ready(Ok) means that there is none and, without errors, all is written. */
    method FinishWrite() returns (r: Poll<Result<nat>>)
      requires Valid()
      modifies this`writeBuf, this`failed, writeFut, wbuf, stream`written, stream`script, stream`seen
      ensures Valid()
      ensures r.Pending? <==> writeFut.armed
      ensures r.Ready? && r.value.Ok? ==> failed == old(failed) && (!failed ==> stream.written == accepted)
      ensures r.Ready? && !r.value.Ok? ==> r.value.Fail? && failed
      ensures |old(stream.written)| <= |stream.written|
      ensures !old(writeFut.armed) ==>
                r == Ready(Ok(0)) && failed == old(failed) && stream.written == old(stream.written)
                && stream.script == old(stream.script)
      ensures HaltedBy(old(stream.seen), stream.seen, HaltOf(r)) && r != Ready(Interrupted)
    {
      if writeFut.armed {
        r := PollWriteFuture();
      } else {
        r := Ready(Ok(0));
      }
    }

    /** Ready(Ok) only with no write in flight; then what was accepted has been written. All of it has been flushed if
        and only if the flush was made in this call, or nothing has been written since it was made, or all was flushed
        before. */
    method PollFlush() returns (r: Poll<Result<()>>)
      requires Valid()
      modifies this`writeBuf, this`failed, writeFut, wbuf, flushFut
      modifies stream`written, stream`script, stream`seen, stream`flushed
      ensures Valid()
      ensures r == Ready(Ok(())) ==> !writeFut.armed && !flushFut.armed && failed == old(failed)
      ensures r == Ready(Ok(())) && !failed ==> stream.written == accepted
      ensures r == Ready(Ok(())) ==>
                (stream.flushed == |stream.written| <==>
                   || !old(flushFut.armed) || old(flushFut.slot.value) == |stream.written|
                   || old(stream.flushed) == |stream.written|)
      ensures !old(writeFut.armed) ==>
                && !writeFut.armed && failed == old(failed) && stream.written == old(stream.written)
                && Answers(old(stream.script), r) && stream.script == Rest(old(stream.script))
                && (r == Ready(Ok(())) <==> old(stream.script) == [] || old(stream.script)[0].Move?)
      ensures HaltedBy(old(stream.seen), stream.seen, HaltOf(r)) && Interrupts(old(stream.seen), stream.seen, r)
      ensures r.Pending? && !writeFut.armed ==>
                && flushFut.armed
                && flushFut.slot == if old(flushFut.armed) then old(flushFut.slot) else Some(|stream.written|)
      ensures var mark := if old(flushFut.armed) then old(flushFut.slot.value) else |stream.written|;
        stream.flushed == if r == Ready(Ok(())) && old(stream.flushed) < mark then mark else old(stream.flushed)
    {
      var before := FinishWrite();
      match before {
        case Pending => return Pending;
        case Ready(Fail(code)) => return Ready(Fail(code));
        case _ =>
      }
      ghost var seen := stream.seen;
      r := PollFlushFuture();
      GoesOn(old(stream.seen), seen, stream.seen, HaltOf(r));
    }

    /** Arms the flush unless one is pending, and polls it. */
    method PollFlushFuture() returns (r: Poll<Result<()>>)
      requires Separate() && FlushOk()
      modifies stream`script, stream`seen, stream`flushed, flushFut
      ensures FlushOk() && (r.Ready? <==> !flushFut.armed)
      ensures var mark := if old(flushFut.armed) then old(flushFut.slot.value) else |stream.written|;
        && (r.Pending? ==> flushFut.slot == Some(mark))
        && stream.flushed == if r == Ready(Ok(())) && old(stream.flushed) < mark then mark else old(stream.flushed)
      ensures Answers(old(stream.script), r) && stream.script == Rest(old(stream.script))
      ensures r == Ready(Ok(())) <==> old(stream.script) == [] || old(stream.script)[0].Move?
      ensures HaltedBy(old(stream.seen), stream.seen, HaltOf(r)) && Interrupts(old(stream.seen), stream.seen, r)
    {
      if !flushFut.armed {
        flushFut.ArmFuture(|stream.written|);
      }
      r := stream.PollFlush(flushFut.slot.value);
      OneOutcome(old(stream.seen), old(stream.script), r);
      if r.Ready? {
        flushFut.Done();
      }
    }

    /** As PollFlush, with the stream shut down at the end. */
    method PollShutdown() returns (r: Poll<Result<()>>)
      requires Valid()
      modifies this`writeBuf, this`failed, writeFut, wbuf, shutdownFut
      modifies stream`written, stream`script, stream`seen, stream`isShutdown
      ensures Valid()
      ensures r == Ready(Ok(())) ==> !writeFut.armed && !shutdownFut.armed && stream.isShutdown && failed == old(failed)
      ensures r == Ready(Ok(())) && !failed ==> stream.written == accepted
      ensures !old(writeFut.armed) ==>
                && !writeFut.armed && failed == old(failed) && stream.written == old(stream.written)
                && Answers(old(stream.script), r) && stream.script == Rest(old(stream.script))
                && (r == Ready(Ok(())) <==> old(stream.script) == [] || old(stream.script)[0].Move?)
      ensures HaltedBy(old(stream.seen), stream.seen, HaltOf(r)) && Interrupts(old(stream.seen), stream.seen, r)
      ensures stream.isShutdown == (old(stream.isShutdown) || r == Ready(Ok(())))
    {
      var before := FinishWrite();
      match before {
        case Pending => return Pending;
        case Ready(Fail(code)) => return Ready(Fail(code));
        case _ =>
      }
      ghost var seen := stream.seen;
      r := PollShutdownFuture();
      GoesOn(old(stream.seen), seen, stream.seen, HaltOf(r));
    }

    method PollShutdownFuture() returns (r: Poll<Result<()>>)
      requires Separate() && FlushOk()
      modifies stream`script, stream`seen, stream`isShutdown, shutdownFut
      ensures FlushOk() && (r.Ready? <==> !shutdownFut.armed)
      ensures Answers(old(stream.script), r) && stream.script == Rest(old(stream.script))
      ensures r == Ready(Ok(())) <==> old(stream.script) == [] || old(stream.script)[0].Move?
      ensures HaltedBy(old(stream.seen), stream.seen, HaltOf(r)) && Interrupts(old(stream.seen), stream.seen, r)
      ensures stream.isShutdown == (old(stream.isShutdown) || r == Ready(Ok(())))
    {
      if !shutdownFut.armed {
        shutdownFut.ArmFuture(|stream.written|);
      }
      r := stream.PollShutdown();
      OneOutcome(old(stream.seen), old(stream.script), r);
      if r.Ready? {
        shutdownFut.Done();
      }
    }
  }

  /** A flush is pending, a byte is written, and the flush is ready: it has not covered the byte. */
  method FlushMissesLaterWrite() returns (w: StreamWrapper, r: Poll<Result<()>>)
    ensures w.Valid() && !w.failed && w.accepted == [7]
    ensures r == Ready(Ok(())) && w.stream.written == [7] && w.stream.flushed == 0
  {
    var stream := new Stream([], [NotYet]);
    w := new StreamWrapper(stream, 1, 1);
    var first := w.PollFlush();
    assert first.Pending? && Rest([NotYet]) == [];
    assert [7][..1] == [7];
    var written := w.PollWrite([7]);
    r := w.PollFlush();
  }
}
