/** Messages read as a stream of bytes (internal/tunnel/conn.go), as functions of what is still to come. */
module ByteStream {
  import opened Go

  type byte = n: int | 0 <= n < 256

  /** How a message ends: with an end-of-message of its own, with one that comes along with the last
      bytes, or cut short by a broken connection. */
  datatype End = Alone | WithLastBytes | Cut

  datatype Message = Message(bytes: seq<byte>, end: End)

  datatype Err = Ok | EOF | Broken

  /** reader: what is left of the current message; queue: the messages to come; chunks: how many bytes
      beyond the first each read of a message hands out at most. */
  datatype Conn = Conn(reader: Option<Message>, queue: seq<Message>, chunks: seq<nat>)

  function Min(a: nat, b: nat): nat {
    if a < b then a else b
  }

  /** One Read of the message reader of the library. */
  function ReadMessage(m: Message, size: nat, chunk: nat): (Message, seq<byte>, Err) {
    if m.bytes == [] then (m, [], if m.end == Cut then Broken else EOF)
    else
      var n := Min(Min(size, |m.bytes|), chunk + 1);
      (m.(bytes := m.bytes[n..]), m.bytes[..n], if m.end == WithLastBytes && n == |m.bytes| then EOF else Ok)
  }

  function NextChunk(chunks: seq<nat>): nat {
    if chunks == [] then 0 else chunks[0]
  }

  function LaterChunks(chunks: seq<nat>): seq<nat> {
    if chunks == [] then [] else chunks[1..]
  }

  /** WebSocketConn.Read into a buffer of this size. */
  function Read(c: Conn, size: nat): (Conn, seq<byte>, Err)
    decreases |c.queue|, c.reader.Some?
  {
    if c.reader.None? then
      if c.queue == [] then (c, [], Broken)
      else Read(Conn(Some(c.queue[0]), c.queue[1..], c.chunks), size)
    else
      var (rest, piece, err) := ReadMessage(c.reader.value, size, NextChunk(c.chunks));
      var chunks := LaterChunks(c.chunks);
      if err == EOF then Read(Conn(None, c.queue, chunks), size)
      else (Conn(Some(rest), c.queue, chunks), piece, err)
  }

  // ---- The stream behind the messages ----

  function Flatten(pieces: seq<seq<byte>>): seq<byte> {
    if pieces == [] then [] else pieces[0] + Flatten(pieces[1..])
  }

  /** Nothing comes after a message that was cut. */
  function Coming(queue: seq<Message>): seq<byte> {
    if queue == [] then []
    else queue[0].bytes + if queue[0].end == Cut then [] else Coming(queue[1..])
  }

  function Pending(c: Conn): seq<byte> {
    if c.reader.None? then Coming(c.queue) else Coming([c.reader.value] + c.queue)
  }

  /** What the library promises: the end of a message comes with zero bytes. */
  ghost predicate Patient(c: Conn) {
    && (c.reader.Some? ==> c.reader.value.end != WithLastBytes)
    && forall i :: 0 <= i < |c.queue| ==> c.queue[i].end != WithLastBytes
  }

  lemma PendingUnfolds(c: Conn)
    requires c.reader.Some?
    ensures Pending(c) == c.reader.value.bytes + if c.reader.value.end == Cut then [] else Coming(c.queue)
  {
    assert ([c.reader.value] + c.queue)[1..] == c.queue;
  }

  /** One read: it hands out the next bytes of the stream, at least one if there is room and anything is
      left, and fails only when everything has been handed out. */
  lemma {:induction false} ReadTakesNext(c: Conn, size: nat)
    requires Patient(c)
    ensures var (v, piece, err) := Read(c, size);
      && Patient(v) && piece + Pending(v) == Pending(c) && |piece| <= size
      && (err == Ok || (err == Broken && piece == [] && Pending(c) == []))
      && (size > 0 && Pending(c) != [] ==> piece != [])
    decreases |c.queue|, c.reader.Some?
  {
    if c.reader.None? {
      if c.queue != [] {
        var next := Conn(Some(c.queue[0]), c.queue[1..], c.chunks);
        assert [c.queue[0]] + c.queue[1..] == c.queue;
        ReadTakesNext(next, size);
      }
    } else {
      PendingUnfolds(c);
      var m := c.reader.value;
      var (rest, piece, err) := ReadMessage(m, size, NextChunk(c.chunks));
      if err == EOF {
        ReadTakesNext(Conn(None, c.queue, LaterChunks(c.chunks)), size);
      } else {
        PendingUnfolds(Conn(Some(rest), c.queue, LaterChunks(c.chunks)));
        assert m.bytes == piece + rest.bytes;
      }
    }
  }

  function ReadAll(c: Conn, sizes: seq<nat>): (Conn, seq<seq<byte>>)
    decreases |sizes|
  {
    if sizes == [] then (c, [])
    else
      var (v, piece, _) := Read(c, sizes[0]);
      var (w, pieces) := ReadAll(v, sizes[1..]);
      (w, [piece] + pieces)
  }

  /** Reads with buffers of any sizes hand out consecutive pieces of the concatenated messages: nothing is
      lost, repeated or out of order, and no piece is longer than its buffer. */
  lemma {:induction false} ReadsAreConsecutive(c: Conn, sizes: seq<nat>)
    requires Patient(c)
    ensures var (v, pieces) := ReadAll(c, sizes);
      && Flatten(pieces) + Pending(v) == Pending(c)
      && |pieces| == |sizes| && forall i :: 0 <= i < |sizes| ==> |pieces[i]| <= sizes[i]
    decreases |sizes|
  {
    if sizes != [] {
      ReadTakesNext(c, sizes[0]);
      var (v, piece, err) := Read(c, sizes[0]);
      ReadsAreConsecutive(v, sizes[1..]);
      var (w, pieces) := ReadAll(v, sizes[1..]);
      assert ([piece] + pieces)[1..] == pieces;
      assert piece + (Flatten(pieces) + Pending(w)) == (piece + Flatten(pieces)) + Pending(w);
      forall i | 0 < i < |sizes| ensures |([piece] + pieces)[i]| <= sizes[i] {
        assert sizes[i] == sizes[1..][i - 1];
      }
    }
  }

  /** As many reads into non-empty buffers as there are bytes hand out every byte. */
  lemma {:induction false} ReadsReachTheEnd(c: Conn, sizes: seq<nat>)
    requires Patient(c) && |Pending(c)| <= |sizes| && forall i :: 0 <= i < |sizes| ==> sizes[i] > 0
    ensures Flatten(ReadAll(c, sizes).1) == Pending(c)
    decreases |sizes|
  {
    if sizes != [] {
      ReadTakesNext(c, sizes[0]);
      var (v, piece, err) := Read(c, sizes[0]);
      forall i | 0 <= i < |sizes| - 1 ensures sizes[1..][i] > 0 {
        assert sizes[1..][i] == sizes[i + 1];
      }
      ReadsReachTheEnd(v, sizes[1..]);
      var pieces := ReadAll(v, sizes[1..]).1;
      assert ([piece] + pieces)[1..] == pieces;
    }
  }

  /** Why the promise matters: bytes that came together with the end of their message would be lost. */
  lemma EagerEndIsLost(m: Message, queue: seq<Message>, size: nat)
    requires m.end == WithLastBytes && m.bytes != [] && |m.bytes| <= size
    ensures Read(Conn(Some(m), queue, [|m.bytes|]), size) == Read(Conn(None, queue, []), size)
    ensures Pending(Conn(Some(m), queue, [|m.bytes|])) == m.bytes + Pending(Conn(None, queue, []))
  {
    PendingUnfolds(Conn(Some(m), queue, [|m.bytes|]));
    assert LaterChunks([|m.bytes|]) == [];
  }

  // ---- A pipe ----

  /** Every Write is sent as one message. */
  function Sent(writes: seq<seq<byte>>): seq<Message> {
    seq(|writes|, i requires 0 <= i < |writes| => Message(writes[i], Alone))
  }

  lemma {:induction false} SentIsComing(writes: seq<seq<byte>>)
    ensures Coming(Sent(writes)) == Flatten(writes)
  {
    if writes != [] {
      assert Sent(writes)[1..] == Sent(writes[1..]);
      SentIsComing(writes[1..]);
    }
  }

  /** What is written at one end is read at the other, however it was cut up on either side. */
  lemma PipeDelivers(writes: seq<seq<byte>>, chunks: seq<nat>, sizes: seq<nat>)
    requires |Flatten(writes)| <= |sizes| && forall i :: 0 <= i < |sizes| ==> sizes[i] > 0
    ensures Flatten(ReadAll(Conn(None, Sent(writes), chunks), sizes).1) == Flatten(writes)
  {
    SentIsComing(writes);
    ReadsReachTheEnd(Conn(None, Sent(writes), chunks), sizes);
  }
}
