/** The buffered reader (crates/monoio/src/io/util/buf_reader.rs) and what reads lines through it
    (crates/monoio/src/io/async_buf_read_ext.rs). */
module BufReader {
  import opened Prelude

  /** One answer of the wrapped reader: at most that many bytes, or an error. */
  datatype Answer = Give(most: nat) | Interrupt | Break(code: int)

  /** No error but interruptions. */
  predicate Steady(script: seq<Answer>) { forall a :: a in script ==> !a.Break? }

  /** How one read comes out, with these answers to come. */
  predicate Answers<T>(script: seq<Answer>, r: Result<T>) {
    if script == [] then r.Ok?
    else
      match script[0]
      case Give(_) => r.Ok?
      case Interrupt => r.Interrupted?
      case Break(code) => r == Fail(code)
  }

  function ErrorOf<T>(r: Result<T>): Option<int> { if r.Fail? then Some(r.code) else None }

  /** Answers have been given between `before` and `after`; only the last can be an error other than an interruption,
      and there is an error if and only if it was one: that one. */
  predicate EndsWith(before: seq<Answer>, after: seq<Answer>, error: Option<int>) {
    && before <= after
    && (forall k :: |before| <= k < |after| - 1 ==> !after[k].Break?)
    && error == if |before| < |after| && after[|after| - 1].Break? then Some(after[|after| - 1].code) else None
  }

  lemma GoesOn(a: seq<Answer>, b: seq<Answer>, c: seq<Answer>, error: Option<int>)
    requires EndsWith(a, b, None) && EndsWith(b, c, error)
    ensures EndsWith(a, c, error)
  {
  }

  /** The wrapped reader: a stream with the answers it will give; after them it gives all it can. It may be short, but
      reads nothing only at the end of the stream or into an empty buffer, and an error takes nothing. */
  class Source {
    var rest: seq<byte>
    var script: seq<Answer>
    ghost const all: seq<Answer>
    ghost var given: seq<Answer>  // the answers so far

    ghost predicate Valid()
      reads this
    {
      all == given + script
    }

    constructor (rest: seq<byte>, script: seq<Answer>)
      ensures Valid() && this.rest == rest && this.script == script && given == []
    {
      this.rest, this.script, given, all := rest, script, [], script;
    }

    method Read(dst: array<byte>) returns (r: Result<nat>)
      requires Valid()
      modifies this`rest, this`script, this`given, dst
      ensures Valid() && script == Rest(old(script))
      ensures !r.Ok? ==> |script| < |old(script)| && rest == old(rest)
      ensures Answers(old(script), r)
      ensures given == old(given) + (if old(script) == [] then [] else [old(script)[0]])
      ensures r.Ok? ==> r.value <= dst.Length && old(rest) == dst[..r.value] + rest
      ensures r.Ok? && r.value == 0 ==> dst.Length == 0 || old(rest) == []
    {
      var most := dst.Length;
      if script != [] {
        var answer := script[0];
        script, given := script[1..], given + [answer];
        match answer {
          case Interrupt => return Interrupted;
          case Break(code) => return Fail(code);
          case Give(m) => most := if m == 0 then 1 else m;
        }
      }
      var n := Min(Min(most, dst.Length), |rest|);
      forall i | 0 <= i < n {
        dst[i] := rest[i];
      }
      assert dst[..n] == rest[..n];
      rest := rest[n..];
      r := Ok(n);
    }
  }

  function Rest(script: seq<Answer>): seq<Answer> { if script == [] then [] else script[1..] }

  class BufReader {
    const inner: Source
    const buf: array<byte>
    var pos: nat
    var cap: nat

    ghost predicate Valid()
      reads this, inner
    {
      pos <= cap <= buf.Length && inner.Valid()
    }

    /** The bytes not handed out yet: what is buffered, then what the inner reader still has. */
    ghost function Stream(): seq<byte>
      requires Valid()
      reads this, buf, inner
    {
      buf[pos..cap] + inner.rest
    }

    constructor (capacity: nat, inner: Source)
      requires inner.Valid()
      ensures Valid() && this.inner == inner && Stream() == inner.rest && fresh(buf) && buf.Length == capacity
    {
      this.inner := inner;
      buf := new byte[capacity](_ => 0);
      pos, cap := 0, 0;
    }

    /** Reads into `dst`, around the buffer if it is empty and `dst` is no smaller. Whatever is read is the next part
        of the stream; nothing is read only at its end; an error loses nothing. The inner reader is asked once if
        nothing is buffered, and its error is the result; else what is buffered is handed out. */
    method Read(dst: array<byte>) returns (r: Result<nat>)
      requires Valid() && dst != buf
      modifies this, buf, inner, dst
      ensures Valid()
      ensures r.Ok? ==> r.value <= dst.Length && old(Stream()) == dst[..r.value] + Stream()
      ensures r.Ok? && r.value == 0 ==> dst.Length == 0 || old(Stream()) == []
      ensures !r.Ok? ==> Stream() == old(Stream())
      ensures if old(pos < cap) then r == Ok(Min(old(cap - pos), dst.Length)) && inner.script == old(inner.script)
              else Answers(old(inner.script), r) && inner.script == Rest(old(inner.script))
    {
      if pos == cap && dst.Length >= buf.Length {
        pos, cap := 0, 0;
        r := inner.Read(dst);
        return;
      }
      r := FillBuf();
      if !r.Ok? {
        return;
      }
      var amt := Min(r.value, dst.Length);
      CopyOut(dst, amt);
      r := Ok(amt);
    }

    /** Hands out the first `amt` buffered bytes. */
    method CopyOut(dst: array<byte>, amt: nat)
      requires Valid() && dst != buf && amt <= dst.Length && amt <= cap - pos
      modifies this`pos, dst
      ensures Valid() && old(Stream()) == dst[..amt] + Stream()
    {
      forall i | 0 <= i < amt {
        dst[i] := buf[pos + i];
      }
      assert dst[..amt] == buf[pos..pos + amt] == Stream()[..amt];
      Consume(amt);
    }

    /** Makes sure that something is buffered, and says how much; nothing only at the end of the stream. */
    method FillBuf() returns (r: Result<nat>)
      requires Valid()
      modifies this, buf, inner
      ensures Valid() && Stream() == old(Stream()) && |inner.script| <= old(|inner.script|)
      ensures if old(pos < cap) then r.Ok? && unchanged(this) && inner.script == old(inner.script)
              else Answers(old(inner.script), r) && inner.script == Rest(old(inner.script))
      ensures EndsWith(old(inner.given), inner.given, ErrorOf(r))
      ensures r.Ok? ==> r.value == cap - pos
      ensures r.Ok? && r.value == 0 ==> buf.Length == 0 || Stream() == []
      ensures !r.Ok? ==> pos == cap == old(cap) && |inner.script| < old(|inner.script|)
    {
      if pos == cap {
        r := inner.Read(buf);
        if r.Ok? {
          pos, cap := 0, r.value;
        }
        return;
      }
      r := Ok(cap - pos);
    }

    method Consume(amt: nat)
      requires Valid()
      modifies this`pos
      ensures Valid() && Stream() == old(Stream())[Min(amt, old(cap - pos))..]
    {
      pos := Min(cap, pos + amt);
    }
  }

  // ----- read_until -----

  /** The shortest prefix that ends with the delimiter, or everything. */
  function UpTo(s: seq<byte>, delim: byte): (p: seq<byte>)
    ensures p <= s
    ensures forall i :: 0 <= i < |p| - 1 ==> p[i] != delim
    ensures p == s || (p != [] && p[|p| - 1] == delim)
  {
    if s == [] || s[0] == delim then s[..Min(1, |s|)] else [s[0]] + UpTo(s[1..], delim)
  }

  /** These three facts leave no choice. */
  lemma UpToIsUnique(s: seq<byte>, delim: byte, p: seq<byte>)
    requires p <= s && (forall i :: 0 <= i < |p| - 1 ==> p[i] != delim)
    requires p == s || (p != [] && p[|p| - 1] == delim)
    ensures p == UpTo(s, delim)
  {
  }

  class Vec {
    var bytes: seq<byte>

    constructor ()
      ensures bytes == []
    {
      bytes := [];
    }

    method ExtendFromSlice(slice: seq<byte>)
      modifies this
      ensures bytes == old(bytes) + slice
    {
      bytes := bytes + slice;
    }

    method SetLen(len: nat)
      requires len <= |bytes|
      modifies this
      ensures bytes == old(bytes)[..len]
    {
      bytes := bytes[..len];
    }
  }

  /** The position of the first `delim`, by scanning. */
  method Memchr(delim: byte, s: seq<byte>) returns (i: Option<nat>)
    ensures i.None? ==> delim !in s
    ensures i.Some? ==> i.value < |s| && s[i.value] == delim && delim !in s[..i.value]
  {
    var k := 0;
    while k < |s| && s[k] != delim
      invariant k <= |s| && delim !in s[..k]
    {
      k := k + 1;
    }
    i := if k < |s| then Some(k) else None;
  }

  /** One round of read_until: fills, moves what is buffered through the delimiter, and tells whether that was found. */
  method MoveSome(r: BufReader, delim: byte, vec: Vec) returns (ret: Result<(bool, nat)>, ghost moved: seq<byte>)
    requires r.Valid()
    modifies r, r.buf, r.inner, vec
    ensures r.Valid() && vec.bytes == old(vec.bytes) + moved && old(r.Stream()) == moved + r.Stream()
    ensures |r.inner.script| <= |old(r.inner.script)|
    ensures EndsWith(old(r.inner.given), r.inner.given, ErrorOf(ret))
    ensures !ret.Ok? ==> moved == [] && |r.inner.script| < |old(r.inner.script)|
    ensures ret.Ok? ==>
              var (done, used) := ret.value;
              && used == |moved| && (used == 0 ==> r.buf.Length == 0 || r.Stream() == [])
              && (if done then used > 0 && moved[used - 1] == delim && delim !in moved[..used - 1] else delim !in moved)
              && (r.buf.Length == 0 ==> used == 0)
  {
    var filled := r.FillBuf();
    moved := [];
    match filled {
      case Interrupted => return Interrupted, [];
      case Fail(code) => return Fail(code), [];
      case Ok(_) =>
    }
    var done, used;
    done, used, moved := TakeThrough(r, delim, vec);
    ret := Ok((done, used));
  }

  /** Moves what is buffered through the delimiter. */
  method TakeThrough(r: BufReader, delim: byte, vec: Vec) returns (done: bool, used: nat, ghost moved: seq<byte>)
    requires r.Valid()
    modifies r`pos, vec
    ensures r.Valid() && vec.bytes == old(vec.bytes) + moved && old(r.Stream()) == moved + r.Stream()
    ensures used == |moved| <= old(r.cap - r.pos) && (used == 0 ==> old(r.pos) == r.cap)
    ensures if done then used > 0 && moved[used - 1] == delim && delim !in moved[..used - 1] else delim !in moved
  {
    var available := r.buf[r.pos..r.cap];
    var i := Memchr(delim, available);
    done, used := i.Some?, if i.Some? then i.value + 1 else |available|;
    moved := available[..used];
    vec.ExtendFromSlice(available[..used]);
    assert r.Stream()[..used] == moved;
    r.Consume(used);
  }

  lemma ErrorWasToCome(all: seq<Answer>, before: seq<Answer>, script: seq<Answer>, after: seq<Answer>, code: int)
    requires all == before + script && after <= all && EndsWith(before, after, Some(code))
    ensures !Steady(script)
  {
    assert all[|after| - 1] == script[|after| - 1 - |before|];
  }

  /** What read_until has done with what it appended to `vec` and took from `stream`. */
  ghost predicate HasRead(vec: seq<byte>, vec': seq<byte>, stream: seq<byte>, stream': seq<byte>, delim: byte,
                          capacity: nat, ret: Result<nat>) {
    && vec <= vec'
    && var taken := vec'[|vec|..];
       && stream == taken + stream'
       && (ret.Ok? ==> ret.value == |taken|)
       && (ret.Ok? ==> (taken == UpTo(stream, delim) <==> capacity > 0 || stream == []))
       && (capacity == 0 ==> taken == [])
       && (!ret.Ok? ==> delim !in taken)
  }

  /** Moves bytes of the stream through the delimiter into `vec`; interruptions are ignored, on another error what was
      moved stays. With a buffer of capacity zero nothing is ever buffered, and a stream that is not at its end seems
      to be. */
  method ReadUntil(r: BufReader, delim: byte, vec: Vec) returns (ret: Result<nat>)
    requires r.Valid()
    modifies r, r.buf, r.inner, vec
    ensures r.Valid() && !ret.Interrupted? && (old(Steady(r.inner.script)) ==> ret.Ok?)
    ensures EndsWith(old(r.inner.given), r.inner.given, ErrorOf(ret))
    ensures HasRead(old(vec.bytes), vec.bytes, old(r.Stream()), r.Stream(), delim, r.buf.Length, ret)
  {
    var read := 0;
    ghost var start, stream, taken: seq<byte> := vec.bytes, r.Stream(), [];
    while true
      invariant r.Valid() && read == |taken| && delim !in taken
      invariant vec.bytes == start + taken && stream == taken + r.Stream()
      invariant EndsWith(old(r.inner.given), r.inner.given, None)
      invariant r.buf.Length == 0 ==> taken == []
      decreases |r.inner.script|, |r.Stream()|
    {
      ghost var rest, given := r.Stream(), r.inner.given;
      var some, moved := MoveSome(r, delim, vec);
      Append(start, stream, taken, rest, moved, r.Stream());
      GoesOn(old(r.inner.given), given, r.inner.given, ErrorOf(some));
      taken := taken + moved;
      match some {
        case Interrupted => continue;
        case Fail(code) =>
          ErrorWasToCome(r.inner.all, old(r.inner.given), old(r.inner.script), r.inner.given, code);
          return Fail(code);
        case Ok((done, used)) =>
          read := read + used;
          if done || used == 0 {
            Finished(start, stream, taken, r.Stream(), delim, r.buf.Length);
            return Ok(read);
          }
      }
    }
  }

  lemma Append(start: seq<byte>, stream: seq<byte>, taken: seq<byte>, rest: seq<byte>, moved: seq<byte>,
               left: seq<byte>)
    requires stream == taken + rest && rest == moved + left
    ensures stream == taken + moved + left && |rest| == |moved| + |left|
    ensures start + taken + moved == start + (taken + moved)
  {
  }

  lemma Finished(start: seq<byte>, stream: seq<byte>, taken: seq<byte>, left: seq<byte>, delim: byte, capacity: nat)
    requires stream == taken + left && (forall i :: 0 <= i < |taken| - 1 ==> taken[i] != delim)
    requires if capacity == 0 then taken == [] else left == [] || (taken != [] && taken[|taken| - 1] == delim)
    ensures HasRead(start, start + taken, stream, left, delim, capacity, Ok(|taken|))
  {
    assert (start + taken)[|start|..] == taken;
    if capacity > 0 {
      UpToIsUnique(stream, delim, taken);
    }
  }

  /** With a buffer of capacity zero the stream seems to be at its end while two bytes are left. */
  method ZeroCapacityReadsNothing() returns (r: BufReader, vec: Vec, ret: Result<nat>)
    ensures r.Valid() && r.Stream() == [65, 10] && ret == Ok(0) && vec.bytes == []
  {
    var inner := new Source([65, 10], []);
    r := new BufReader(0, inner);
    vec := new Vec();
    ret := ReadUntil(r, 10, vec);
    assert vec.bytes[0..] == vec.bytes;
  }

  const NEWLINE: byte := 10
  const INVALID_DATA: int := -1

  /** Whether the last of the answers since `before` was an error. */
  predicate Broke(before: seq<Answer>, after: seq<Answer>) { |before| < |after| && after[|after| - 1].Break? }

  /** Appends a line to the bytes of a String. `utf8` is from_utf8; the guard's length decides what stays: the new bytes
      if they are valid, even when reading ended with an error, and none of them if they are not. They have left the
      stream either way. The result is the error of the inner reader, if there was one. */
  method ReadLine(r: BufReader, buf: Vec, utf8: seq<byte> -> bool) returns (ret: Result<nat>, ghost taken: seq<byte>)
    requires r.Valid()
    modifies r, r.buf, r.inner, buf
    ensures r.Valid() && old(r.Stream()) == taken + r.Stream()
    ensures buf.bytes == if utf8(taken) then old(buf.bytes) + taken else old(buf.bytes)
    ensures ret.Ok? ==> utf8(taken) && ret.value == |taken|
    ensures ret.Ok? && r.buf.Length > 0 ==> taken == UpTo(old(r.Stream()), NEWLINE)
    ensures var given := r.inner.given;
      ret == if Broke(old(r.inner.given), given) then Fail(given[|given| - 1].code)
             else if utf8(taken) then Ok(|taken|) else Fail(INVALID_DATA)
    ensures old(r.inner.given) <= r.inner.given
    ensures forall k :: |old(r.inner.given)| <= k < |r.inner.given| - 1 ==> !r.inner.given[k].Break?
    ensures !utf8(taken) && (taken != [] && taken[|taken| - 1] == NEWLINE) ==> ret == Fail(INVALID_DATA)
    ensures !ret.Ok? && utf8(taken) ==> NEWLINE !in taken
  {
    var len := |buf.bytes|;
    ret := ReadUntil(r, NEWLINE, buf);
    taken := buf.bytes[len..];
    if !utf8(buf.bytes[len..]) {
      if ret.Ok? {
        ret := Fail(INVALID_DATA);
      }
    } else {
      len := |buf.bytes|;
    }
    buf.SetLen(len);
  }
}
