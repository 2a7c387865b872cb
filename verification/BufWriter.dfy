/** The buffered writer (crates/monoio/src/io/util/buf_writer.rs) and the write_all loop it flushes with
    (crates/monoio/src/io/async_write_rent_ext.rs). */
module BufWriter {
  import opened Prelude

  /** One answer of the wrapped writer: it takes at most that many bytes, or fails and takes none. */
  datatype Answer = Take(most: nat) | Interrupt | Break(code: int)

  /** The answer to the next write of `len` bytes. */
  function Answered(script: seq<Answer>, len: nat): Result<nat> {
    if script == [] then Ok(len)
    else
      match script[0]
      case Interrupt => Interrupted
      case Break(code) => Fail(code)
      case Take(most) => Ok(Min(most, len))
  }

  /** The wrapped writer, with the answers it will give; after them it takes all it is offered. */
  class Sink {
    var contents: seq<byte>
    var flushed: nat            // how much had been written at the last flush
    var script: seq<Answer>

    constructor (script: seq<Answer>)
      ensures contents == [] && flushed == 0 && this.script == script
    {
      contents, flushed, this.script := [], 0, script;
    }

    method Write(data: seq<byte>) returns (r: Result<nat>)
      modifies this
      ensures r.Ok? ==> r.value <= |data| && contents == old(contents) + data[..r.value]
      ensures !r.Ok? ==> contents == old(contents)
      ensures script == (if old(script) == [] then [] else old(script)[1..]) && flushed == old(flushed)
      ensures r == Answered(old(script), |data|)
    {
      var n := |data|;
      if script != [] {
        var answer := script[0];
        script := script[1..];
        match answer {
          case Interrupt => return Interrupted;
          case Break(code) => return Fail(code);
          case Take(most) => n := Min(most, |data|);
        }
      }
      contents := contents + data[..n];
      r := Ok(n);
    }

    method Flush() returns (r: Result<()>)
      modifies this
      ensures contents == old(contents) && (r.Ok? ==> flushed == |contents|)
      ensures script == if old(script) == [] then [] else old(script)[1..]
      ensures r.Ok? <==> old(script) == [] || old(script)[0].Take?
      ensures old(script) != [] && old(script)[0].Break? ==> r == Fail(old(script)[0].code)
    {
      if script != [] {
        var answer := script[0];
        script := script[1..];
        match answer {
          case Interrupt => return Interrupted;
          case Break(code) => return Fail(code);
          case Take(_) =>
        }
      }
      flushed := |contents|;
      r := Ok(());
    }
  }

  /** What becomes of `len` bytes offered again and again: how many are taken, whether all are, the answers left, and
      the code of the error if not all are. */
  function Passed(script: seq<Answer>, len: nat): (p: (nat, bool, seq<Answer>, int))
    ensures p.0 <= len && (p.1 <==> p.0 == len)
    decreases |script|
  {
    if len == 0 then (0, true, script, 0)
    else if script == [] then (len, true, [], 0)
    else
      match script[0]
      case Interrupt => Passed(script[1..], len)
      case Break(code) => (0, false, script[1..], code)
      case Take(most) =>
        if most == 0 then (0, false, script[1..], WRITE_ZERO)
        else
          var n := Min(most, len);
          var rest := Passed(script[1..], len - n);
          (n + rest.0, rest.1, rest.2, rest.3)
  }

  /** An answer that ends the offering: an error, or nothing taken. */
  predicate Stops(a: Answer) { a.Break? || a == Take(0) }

  /** The first answer that stops it ends it, with its error, unless everything has been taken before; interruptions and
      short writes are got over. */
  lemma {:induction false} EndsAtFirstStop(script: seq<Answer>, len: nat) returns (used: nat)
    ensures var p := Passed(script, len);
      && used <= |script| && p.2 == script[used..]
      && (forall j :: 0 <= j < used - (if p.1 then 0 else 1) ==> !Stops(script[j]))
      && (!p.1 ==> used > 0 && Stops(script[used - 1])
                   && p.3 == if script[used - 1].Break? then script[used - 1].code else WRITE_ZERO)
    decreases |script|
  {
    if len == 0 || script == [] {
      return 0;
    }
    match script[0]
    case Interrupt =>
      used := EndsAtFirstStop(script[1..], len);
      used := used + 1;
    case Break(_) => used := 1;
    case Take(most) =>
      if most == 0 {
        used := 1;
      } else {
        used := EndsAtFirstStop(script[1..], len - Min(most, len));
        used := used + 1;
      }
  }

  /** So all is taken if no answer stops it. */
  lemma {:induction false} AllIsTaken(script: seq<Answer>, len: nat)
    requires forall a :: a in script ==> !a.Break? && a != Take(0)
    ensures Passed(script, len).0 == len && Passed(script, len).1
  {
    var used := EndsAtFirstStop(script, len);
    assert used > 0 ==> script[used - 1] in script;
  }

  /** Writes everything, over short and interrupted writes; on an error, including a write that takes nothing, some part
      from the front has been written. Which of these happens, and how large the part is, is settled by the answers. */
  method WriteAll(sink: Sink, data: seq<byte>) returns (r: Result<nat>)
    modifies sink
    ensures var p := Passed(old(sink.script), |data|);
      && sink.contents == old(sink.contents) + data[..p.0] && sink.script == p.2
      && r == if p.1 then Ok(|data|) else Fail(p.3)
    ensures sink.flushed == old(sink.flushed)
  {
    var len := |data|;
    var written := 0;
    while written < len
      invariant written <= len && sink.contents == old(sink.contents) + data[..written]
      invariant sink.flushed == old(sink.flushed)
      invariant var p, q := Passed(old(sink.script), len), Passed(sink.script, len - written);
        p == (written + q.0, q.1, q.2, q.3)
      decreases len - written, |sink.script|
    {
      var result := sink.Write(data[written..len]);
      match result {
        case Ok(n) =>
          if n == 0 {
            return Fail(WRITE_ZERO);
          }
          assert data[..written + n] == data[..written] + data[written..len][..n];
          written := written + n;
        case Interrupted =>
        case Fail(code) =>
          return Fail(code);
      }
    }
    return Ok(written);
  }

  class BufWriter {
    const inner: Sink
    const buf: array<byte>
    var cap: nat
    ghost var accepted: seq<byte>  // what the callers have been told is written
    ghost var resends: bool        // a failed flush has sent a part of what is still buffered

    /** What has been accepted is what the inner writer has, followed by what is buffered, unless a part was sent
        twice. */
    ghost predicate Valid()
      reads this, buf, inner
    {
      cap <= buf.Length && if resends then |Stream()| > |accepted| else Stream() == accepted
    }

    ghost function Stream(): seq<byte>
      requires cap <= buf.Length
      reads this, buf, inner
    {
      inner.contents + buf[..cap]
    }

    constructor (capacity: nat, inner: Sink)
      requires inner.contents == []
      ensures Valid() && this.inner == inner && buf.Length == capacity && fresh(buf) && accepted == [] && !resends
    {
      this.inner := inner;
      buf := new byte[capacity](_ => 0);
      cap, accepted, resends := 0, [], false;
    }

    /** flush_buf. A failure keeps the whole buffer, so it goes wrong exactly when the answers of the inner writer
        take a part of it and then fail. */
    method FlushBuf() returns (r: Result<()>)
      requires Valid()
      modifies this`cap, this`resends, inner
      ensures Valid() && inner.flushed == old(inner.flushed) && !r.Interrupted?
      ensures var p := Passed(old(inner.script), old(cap));
        && r == (if p.1 then Ok(()) else Fail(p.3)) && inner.script == p.2
        && inner.contents == old(inner.contents) + old(buf[..cap])[..p.0]
        && cap == (if p.1 then 0 else old(cap))
        && resends == (old(resends) || (!p.1 && p.0 > 0))
    {
      if cap != 0 {
        ghost var sent := Passed(inner.script, cap).0;
        var ret := WriteAll(inner, buf[..cap]);
        if ret.Fail? {
          assert |inner.contents| == |old(inner.contents)| + sent && |Stream()| == |old(Stream())| + sent;
          assert sent == 0 ==> inner.contents == old(inner.contents);
          resends := resends || sent != 0;
          return Fail(ret.code);
        }
        cap := 0;
      }
      r := Ok(());
    }

    /** Accepts a first part of `data`, all of it if it fits the buffer. It goes behind what was accepted before,
        whether it is buffered or written directly. */
    method Write(data: seq<byte>) returns (r: Result<nat>)
      requires Valid()
      modifies this, buf, inner
      ensures Valid() && inner.flushed == old(inner.flushed) && (old(resends) ==> resends)
      ensures r.Ok? ==> r.value <= |data| && accepted == old(accepted) + data[..r.value] && resends == old(resends)
      ensures var p := if old(cap) + |data| > buf.Length then Passed(old(inner.script), old(cap))
                       else (0, true, old(inner.script), 0);
        && r == (if !p.1 then Fail(p.3) else if |data| <= buf.Length then Ok(|data|) else Answered(p.2, |data|))
        && inner.script == if p.1 && |data| > buf.Length && p.2 != [] then p.2[1..] else p.2
      ensures !r.Ok? ==> accepted == old(accepted)
      ensures resends == (old(resends) || (old(cap) + |data| > buf.Length && !Passed(old(inner.script), old(cap)).1
                                           && Passed(old(inner.script), old(cap)).0 > 0))
      ensures old(cap) + |data| <= buf.Length ==>
                r.Ok? && inner.contents == old(inner.contents) && inner.script == old(inner.script)
    {
      var amt := |data|;
      if cap + amt > buf.Length {
        var flushed := FlushBuf();
        if !flushed.Ok? {
          return if flushed.Fail? then Fail(flushed.code) else Interrupted;
        }
      }
      if amt > buf.Length {
        assert cap == 0;
        r := inner.Write(data);
      } else {
        Append(data);
        r := Ok(amt);
      }
      if r.Ok? {
        accepted := accepted + data[..r.value];
      }
    }

    method Append(data: seq<byte>)
      requires cap + |data| <= buf.Length
      modifies this`cap, buf
      ensures cap == old(cap) + |data| && Stream() == old(Stream()) + data
    {
      forall i | 0 <= i < |data| {
        buf[cap + i] := data[i];
      }
      cap := cap + |data|;
      assert buf[..cap] == old(buf[..cap]) + data;
    }

    /** After a successful flush nothing is buffered, and all that was accepted has been written and flushed. */
    method Flush() returns (r: Result<()>)
      requires Valid()
      modifies this`cap, this`resends, inner
      ensures Valid()
      ensures r.Ok? ==> cap == 0 && inner.contents == old(Stream()) && inner.flushed == |inner.contents|
      ensures !resends ==> old(inner.contents) <= inner.contents <= accepted
      ensures var p := Passed(old(inner.script), old(cap));
        && inner.contents == old(inner.contents) + old(buf[..cap])[..p.0] && cap == (if p.1 then 0 else old(cap))
        && resends == (old(resends) || (!p.1 && p.0 > 0))
        && (r.Ok? <==> p.1 && (p.2 == [] || p.2[0].Take?)) && (!p.1 ==> r == Fail(p.3))
        && (p.1 && p.2 != [] && p.2[0].Break? ==> r == Fail(p.2[0].code))
        && inner.script == (if !p.1 || p.2 == [] then p.2 else p.2[1..])
    {
      r := FlushBuf();
      if !r.Ok? {
        return;
      }
      r := inner.Flush();
    }
  }

  lemma TakeThenBreak()
    ensures Passed([Take(1), Break(5)], 3) == (1, false, [], 5)
    ensures Passed([], 3) == (3, true, [], 0)
  {
    assert [Take(1), Break(5)][1..] == [Break(5)] && [Break(5)][1..] == [];
    assert Passed([Break(5)], 2) == (0, false, [], 5);
  }

  /** Three bytes are accepted; a flush takes one and fails; the next flush succeeds, and has sent that byte twice. */
  method FailedFlushSendsTwice() returns (w: BufWriter)
    ensures w.Valid() && w.accepted == [1, 2, 3] && w.inner.contents == [1, 1, 2, 3]
  {
    TakeThenBreak();
    var sink := new Sink([Take(1), Break(5)]);
    w := new BufWriter(4, sink);
    var written := w.Write([1, 2, 3]);
    assert w.Stream() == w.buf[..w.cap] == [1, 2, 3];
    var first := w.Flush();
    assert w.inner.contents == [1] && w.buf[..w.cap] == [1, 2, 3];
    var second := w.Flush();
  }
}
