// Framing of messages on a stream, and the buffer they are serialized into
// (aioros/_node/_tcpros/_protocol.py). Message bodies are opaque bytes.
module Streams {
  import opened Outcomes
  import opened Bytes
  import opened Headers

  // ----- reading -----

  // read_data, from the bytes that are to come: a body and what is left.
  function Unframed(bytes: seq<Byte>): Result<(seq<Byte>, seq<Byte>)> {
    if |bytes| < 4 then Err(IncompleteRead)
    else
      var end := 4 + FromU32(bytes[..4]);
      if |bytes| < end then Err(IncompleteRead) else Ok((bytes[4..end], bytes[end..]))
  }

  // All the bytes a peer sends before it closes the connection.
  class BufferedStream {
    var pending: seq<Byte>

    constructor (bytes: seq<Byte>)
      ensures pending == bytes
    {
      pending := bytes;
    }

    method ReceiveExactly(n: nat) returns (r: Result<seq<Byte>>)
      modifies this
      ensures if n <= |old(pending)| then r == Ok(old(pending)[..n]) && pending == old(pending)[n..]
              else r == Err(IncompleteRead) && pending == old(pending)
    {
      if |pending| < n {
        return Err(IncompleteRead);
      }
      r := Ok(pending[..n]);
      pending := pending[n..];
    }

    method ReadData() returns (r: Result<seq<Byte>>)
      modifies this
      ensures match Unframed(old(pending))
              case Ok((body, left)) => r == Ok(body) && pending == left
              case Err(e) => r == Err(e)
    {
      var size := ReceiveExactly(4);
      if size.Err? {
        return Err(size.fault);
      }
      ghost var bytes := old(pending);
      var n := FromU32(size.value);
      assert pending == bytes[4..];
      assert |bytes| >= 4 + n ==> bytes[4..][..n] == bytes[4..4 + n] && bytes[4..][n..] == bytes[4 + n..];
      r := ReceiveExactly(n);
    }

    method ReadHeader() returns (r: Result<Header>)
      modifies this
      ensures match Unframed(old(pending))
              case Ok((body, left)) => r == DecodeLines(body, map[]) && pending == left
              case Err(e) => r == Err(e)
    {
      var header := ReadData();
      if header.Err? {
        return Err(header.fault);
      }
      r := DecodeHeader(header.value);
    }
  }

  lemma FrameRoundTrip(body: seq<Byte>, rest: seq<Byte>)
    requires |body| < LIMIT
    ensures Unframed(Framed(body) + rest) == Ok((body, rest))
  {
    var b := Framed(body) + rest;
    SizeRoundTrip(|body|);
    assert b[..4] == U32(|body|);
    assert b[4..4 + |body|] == body && b[4 + |body|..] == rest;
  }

  // The size comes with its least significant byte first, and does not count itself.
  lemma SmallFrame(n: Byte, body: seq<Byte>, rest: seq<Byte>)
    requires |body| == n
    ensures Unframed([n, 0, 0, 0] + body + rest) == Ok((body, rest))
  {
    SmallSize(n);
    FrameRoundTrip(body, rest);
    assert Framed(body) + rest == [n, 0, 0, 0] + body + rest;
  }

  // A frame that is cut short is never mistaken for a message.
  lemma CutShort(body: seq<Byte>, k: nat)
    requires |body| < LIMIT && k < 4 + |body|
    ensures Unframed(Framed(body)[..k]) == Err(IncompleteRead)
  {
    SizeRoundTrip(|body|);
    if k >= 4 {
      assert Framed(body)[..k][..4] == U32(|body|);
    }
  }

  predicate AllFit(bodies: seq<seq<Byte>>) {
    forall i :: 0 <= i < |bodies| ==> |bodies[i]| < LIMIT
  }

  function Frames(bodies: seq<seq<Byte>>): seq<Byte>
    requires AllFit(bodies)
    decreases |bodies|
  {
    if bodies == [] then [] else Framed(bodies[0]) + Frames(bodies[1..])
  }

  // The messages that can be read one after the other, and what is left then.
  function UnframedAll(n: nat, bytes: seq<Byte>): Result<(seq<seq<Byte>>, seq<Byte>)>
    decreases n
  {
    if n == 0 then Ok(([], bytes))
    else
      match Unframed(bytes)
      case Err(e) => Err(e)
      case Ok((body, left)) =>
        match UnframedAll(n - 1, left)
        case Err(e) => Err(e)
        case Ok((bodies, end)) => Ok(([body] + bodies, end))
  }

  // Messages sent one after the other are read back in order, and nothing more.
  lemma {:induction false} FramesRoundTrip(bodies: seq<seq<Byte>>, rest: seq<Byte>)
    requires AllFit(bodies)
    ensures UnframedAll(|bodies|, Frames(bodies) + rest) == Ok((bodies, rest))
    decreases |bodies|
  {
    if bodies == [] {
      assert Frames(bodies) + rest == rest;
    } else {
      assert Frames(bodies) + rest == Framed(bodies[0]) + (Frames(bodies[1..]) + rest);
      FrameRoundTrip(bodies[0], Frames(bodies[1..]) + rest);
      FramesRoundTrip(bodies[1..], rest);
      assert [bodies[0]] + bodies[1..] == bodies;
    }
  }

  // A connection: the header comes first and leaves exactly the messages behind.
  lemma ConnectionRoundTrip(h: Header, items: Items, bodies: seq<seq<Byte>>, rest: seq<Byte>)
    requires Enumerates(items, h) && Fits(items) && AllFit(bodies)
    ensures var wire := Framed(Lines(items)) + (Frames(bodies) + rest);
      && Unframed(wire) == Ok((Lines(items), Frames(bodies) + rest))
      && UnframedAll(|bodies|, Frames(bodies) + rest) == Ok((bodies, rest))
      && (DecodeLines(Lines(items), map[]) == Ok(h) <==> forall k :: k in h ==> Legible(k))
  {
    FrameRoundTrip(Lines(items), Frames(bodies) + rest);
    FramesRoundTrip(bodies, rest);
    HeaderRoundTrip(h, items);
  }

  // ----- writing -----

  function Zeros(n: nat): (z: seq<Byte>)
    ensures |z| == n
  {
    seq(n, _ => 0)
  }

  // What a write at a position makes of a buffer.
  function Written(data: seq<Byte>, pos: nat, b: seq<Byte>): seq<Byte> {
    var padded := if |data| < pos then data + Zeros(pos - |data|) else data;
    padded[..pos] + b + (if pos + |b| < |padded| then padded[pos + |b|..] else [])
  }

  class BytesIO {
    var data: seq<Byte>
    var pos: nat

    constructor ()
      ensures data == [] && pos == 0
    {
      data, pos := [], 0;
    }

    method Write(b: seq<Byte>)
      modifies this
      ensures b == [] ==> data == old(data)
      ensures b != [] ==> data == Written(old(data), old(pos), b)
      ensures pos == old(pos) + |b|
    {
      if b != [] {
        data := Written(data, pos, b);
      }
      pos := pos + |b|;
    }

    method Truncate()
      modifies this
      ensures data == [] && pos == old(pos)
    {
      data := [];
    }
  }

  function Flat(chunks: seq<seq<Byte>>): seq<Byte>
    decreases |chunks|
  {
    if chunks == [] then [] else Flat(chunks[..|chunks| - 1]) + chunks[|chunks| - 1]
  }

  // What an earlier use of the buffer has left behind the end of a message.
  function Leftover(data: seq<Byte>, n: nat): seq<Byte> {
    if n < |data| then data[n..] else []
  }

  // A buffer after a message has been written into it, behind room for its size.
  function Buffered(data: seq<Byte>, body: seq<Byte>): seq<Byte> {
    if body == [] then data else Written(data, 4, body)
  }

  lemma WrittenTwice(data: seq<Byte>, a: seq<Byte>, b: seq<Byte>)
    requires a != [] && b != []
    ensures Written(Written(data, 4, a), 4 + |a|, b) == Written(data, 4, a + b)
  {
    var padded := if |data| < 4 then data + Zeros(4 - |data|) else data;
    var once := padded[..4] + a + (if 4 + |a| < |padded| then padded[4 + |a|..] else []);
    assert once[..4 + |a|] == padded[..4] + a;
    if 4 + |a| + |b| < |padded| {
      assert once[4 + |a| + |b|..] == padded[4 + |a| + |b|..];
    }
    assert |a + b| == |a| + |b|;
  }

  lemma BufferedMore(data: seq<Byte>, body: seq<Byte>, chunk: seq<Byte>)
    requires chunk != []
    ensures Written(Buffered(data, body), 4 + |body|, chunk) == Buffered(data, body + chunk)
  {
    hide Written;
    if body == [] {
      assert body + chunk == chunk;
    } else {
      WrittenTwice(data, body, chunk);
    }
  }

  // The size in front, and whatever the buffer held behind the message.
  lemma BufferedFramed(data: seq<Byte>, body: seq<Byte>)
    requires |body| < LIMIT
    ensures Written(Buffered(data, body), 0, U32(|body|)) == Framed(body) + Leftover(data, 4 + |body|)
  {
    var b := Buffered(data, body);
    var size := U32(|body|);
    assert Written(b, 0, size) == size + Leftover(b, 4);
    if body != [] {
      assert b[4..] == body + Leftover(data, 4 + |body|);
      assert |b| > 4;
    }
  }

  // serialize: a message writes itself chunk by chunk, and may raise in the end.
  method SerializeInto(buf: BytesIO, chunks: seq<seq<Byte>>, raises: bool) returns (r: Result<seq<Byte>>)
    modifies buf
    ensures r.Ok? <==> !raises && |Flat(chunks)| < LIMIT
    ensures r.Ok? ==> r.value == Framed(Flat(chunks)) + Leftover(old(buf.data), 4 + |Flat(chunks)|)
    ensures r.Err? ==> r == Err(StructError) && buf.data == Buffered(old(buf.data), Flat(chunks))
  {
    hide Written;
    buf.pos := 4;
    var i := 0;
    while i < |chunks|
      invariant 0 <= i <= |chunks|
      invariant buf.data == Buffered(old(buf.data), Flat(chunks[..i]))
      invariant buf.pos == 4 + |Flat(chunks[..i])|
    {
      if chunks[i] != [] {
        BufferedMore(old(buf.data), Flat(chunks[..i]), chunks[i]);
      } else {
        assert Flat(chunks[..i]) + chunks[i] == Flat(chunks[..i]);
      }
      assert chunks[..i + 1][..i] == chunks[..i];
      assert Flat(chunks[..i + 1]) == Flat(chunks[..i]) + chunks[i];
      buf.Write(chunks[i]);
      i := i + 1;
    }
    assert chunks[..i] == chunks;
    if raises {
      return Err(StructError);
    }
    var size := buf.pos - 4;
    buf.pos := 0;
    if size >= LIMIT {
      return Err(StructError);
    }
    BufferedFramed(old(buf.data), Flat(chunks));
    buf.Write(U32(size));
    r := Ok(buf.data);
  }

  // ----- messages with a header -----

  datatype Stamp = Stamp(number: Option<nat>, frameId: Option<string>)

  // What a message writes, and whether it raises in the end, depends on its header.
  class Message {
    var header: Option<Stamp>
    const write: Option<Stamp> -> (seq<seq<Byte>>, bool)

    constructor (header: Option<Stamp>, write: Option<Stamp> -> (seq<seq<Byte>>, bool))
      ensures this.header == header && this.write == write
    {
      this.header, this.write := header, write;
    }
  }

  predicate Unnumbered(h: Option<Stamp>) {
    h.Some? && h.value.number == None
  }

  function Stamped(h: Option<Stamp>, next: nat): Option<Stamp> {
    if h == None then None
    else Some(Stamp(Some(if h.value.number.Some? then h.value.number.value else next),
                    Some(if h.value.frameId.Some? then h.value.frameId.value else "0")))
  }

  function NextNumber(h: Option<Stamp>, next: nat): nat {
    if Unnumbered(h) then next + 1 else next
  }

  // The headers of messages after they have been serialized one after the other.
  function StampedAll(hs: seq<Option<Stamp>>, next: nat): (r: seq<Option<Stamp>>)
    ensures |r| == |hs|
    decreases |hs|
  {
    if hs == [] then [] else [Stamped(hs[0], next)] + StampedAll(hs[1..], NextNumber(hs[0], next))
  }

  function CountUnnumbered(hs: seq<Option<Stamp>>): nat
    decreases |hs|
  {
    if hs == [] then 0 else (if Unnumbered(hs[0]) then 1 else 0) + CountUnnumbered(hs[1..])
  }

  // Messages without a number get the numbers that follow, in the order they are sent and
  // without gaps, failed ones included; messages without a frame id get "0". What a message
  // has it keeps, and one that has no header does not get one.
  lemma {:induction false} NumberedInOrder(hs: seq<Option<Stamp>>, next: nat, i: nat)
    requires i < |hs|
    ensures StampedAll(hs, next)[i] ==
            match hs[i]
            case None => None
            case Some(h) =>
              Some(Stamp(Some(match h.number case Some(n) => n case None => next + CountUnnumbered(hs[..i])),
                         Some(match h.frameId case Some(f) => f case None => "0")))
    decreases |hs|
  {
    if i > 0 {
      NumberedInOrder(hs[1..], NextNumber(hs[0], next), i - 1);
      assert hs[..i][1..] == hs[1..][..i - 1];
    }
  }

  lemma {:induction false} CountMore(hs: seq<Option<Stamp>>, i: nat, j: nat)
    requires i < j <= |hs| && Unnumbered(hs[i])
    ensures CountUnnumbered(hs[..i]) < CountUnnumbered(hs[..j])
    decreases j
  {
    if i > 0 {
      assert hs[..i][1..] == hs[1..][..i - 1] && hs[..j][1..] == hs[1..][..j - 1];
      CountMore(hs[1..], i - 1, j - 1);
    }
  }

  // So numbers given are never given again, and grow.
  lemma NumbersGrow(hs: seq<Option<Stamp>>, next: nat, i: nat, j: nat)
    requires i < j < |hs| && Unnumbered(hs[i]) && Unnumbered(hs[j])
    ensures var a, b := StampedAll(hs, next)[i], StampedAll(hs, next)[j];
      a.Some? && b.Some? && a.value.number.Some? && b.value.number.Some? && a.value.number.value < b.value.number.value
  {
    NumberedInOrder(hs, next, i);
    NumberedInOrder(hs, next, j);
    CountMore(hs, i, j);
  }

  // Sending a message again changes nothing.
  lemma StampedOnce(h: Option<Stamp>, m: nat, n: nat)
    ensures Stamped(Stamped(h, m), n) == Stamped(h, m) && NextNumber(Stamped(h, m), n) == n
  {
  }

  // A serializer keeps its buffer, and clears it after a success only.
  class Serializer {
    const buf: BytesIO
    var next: nat

    constructor ()
      ensures fresh(buf) && buf.data == [] && next == 1
    {
      buf := new BytesIO();
      next := 1;
    }

    method Serialize(msg: Message) returns (r: Result<seq<Byte>>)
      modifies this`next, msg`header, buf
      ensures msg.header == Stamped(old(msg.header), old(next)) && next == NextNumber(old(msg.header), old(next))
      ensures var (chunks, raises) := msg.write(msg.header);
        (r, buf.data) == Serialized(old(buf.data), (Flat(chunks), raises))
    {
      if msg.header.Some? {
        if msg.header.value.number == None {
          msg.header := Some(msg.header.value.(number := Some(next)));
          next := next + 1;
        }
        if msg.header.value.frameId == None {
          msg.header := Some(msg.header.value.(frameId := Some("0")));
        }
      }
      var (chunks, raises) := msg.write(msg.header);
      r := SerializeInto(buf, chunks, raises);
      if r.Ok? {
        buf.Truncate();
        buf.pos := 0;
      }
    }
  }

  // What a serializer returns and what its buffer holds then, for a body and whether
  // writing it raises.
  function Serialized(data: seq<Byte>, message: (seq<Byte>, bool)): (Result<seq<Byte>>, seq<Byte>) {
    var (body, raises) := message;
    if raises || |body| >= LIMIT then (Err(StructError), Buffered(data, body))
    else (Ok(Framed(body) + Leftover(data, 4 + |body|)), [])
  }

  // The output is the frame of the message exactly if what a failure has left in the
  // buffer is no longer than that frame.
  lemma SerializedExact(data: seq<Byte>, body: seq<Byte>)
    requires |body| < LIMIT
    ensures Serialized(data, (body, false)).0 == Ok(Framed(body)) <==> |data| <= 4 + |body|
  {
    var out := Serialized(data, (body, false)).0.value;
    assert |out| == |Framed(body)| + |Leftover(data, 4 + |body|)|;
    assert Framed(body) + [] == Framed(body);
  }

  // What a failed message leaves: itself, behind room for a size, over what was there.
  lemma FailureRemains(data: seq<Byte>, body: seq<Byte>)
    requires body != []
    ensures var after := Serialized(data, (body, true)).1;
      && |after| == (if |data| > 4 + |body| then |data| else 4 + |body|)
      && after[4..4 + |body|] == body
      && (forall i :: 0 <= i < 4 ==> after[i] == if i < |data| then data[i] else 0)
      && (forall i :: 4 + |body| <= i < |data| ==> after[i] == data[i])
  {
  }

  // A failed message of three bytes, and the next, empty one is followed by its remains.
  lemma RemainsExample()
    ensures var after := Serialized([], ([1, 2, 3], true)).1;
      && Serialized(after, ([], false)).0 == Ok(Framed([]) + [1, 2, 3])
      && Serialized(after, ([], false)).0 != Ok(Framed([]))
  {
    var z := Zeros(4);
    var after := Serialized([], ([1, 2, 3], true)).1;
    assert after == z + [1, 2, 3];
    assert after[4..] == [1, 2, 3];
    SerializedExact(after, []);
  }

  // All that a serializer returns for some messages, one after the other.
  function Output(data: seq<Byte>, bodies: seq<seq<Byte>>): seq<Byte>
    requires AllFit(bodies)
    decreases |bodies|
  {
    if bodies == [] then []
    else
      var s := Serialized(data, (bodies[0], false));
      s.0.value + Output(s.1, bodies[1..])
  }

  // Without failures that is what can be read back.
  lemma {:induction false} OutputIsFrames(bodies: seq<seq<Byte>>)
    requires AllFit(bodies)
    ensures Output([], bodies) == Frames(bodies)
    decreases |bodies|
  {
    if bodies != [] {
      SerializedExact([], bodies[0]);
      OutputIsFrames(bodies[1..]);
    }
  }
}
