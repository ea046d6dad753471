/** The adapter from messages to a byte stream as the program it is: a reader field that is set and
    cleared, and a caller's buffer that is filled in place (internal/tunnel/conn.go). */
module TunnelConn {
  import opened Go
  import opened ByteStream

  /** The library's reader of one message. */
  class MessageReader {
    var message: Message

    constructor (message: Message)
      ensures this.message == message
    {
      this.message := message;
    }

    method Read(b: array<byte>, chunk: nat) returns (n: nat, err: Err)
      modifies this, b
      ensures n <= b.Length && (message, b[..n], err) == ReadMessage(old(message), b.Length, chunk)
      ensures b[n..] == old(b[n..])
    {
      var (rest, piece, e) := ReadMessage(message, b.Length, chunk);
      n := |piece|;
      var i := 0;
      while i < n
        invariant 0 <= i <= n <= b.Length
        invariant message == old(message) && b[..i] == piece[..i] && b[i..] == old(b[i..])
      {
        b[i] := piece[i];
        i := i + 1;
      }
      assert b[..n] == piece;
      message, err := rest, e;
    }
  }

  /** The library's connection: the messages that will arrive, and those that were sent. */
  class Socket {
    var queue: seq<Message>
    var chunks: seq<nat>
    var sent: seq<seq<byte>>
    var closed: bool

    constructor (queue: seq<Message>, chunks: seq<nat>)
      ensures this.queue == queue && this.chunks == chunks && sent == [] && !closed
    {
      this.queue, this.chunks, sent, closed := queue, chunks, [], false;
    }

    method NextReader() returns (reader: MessageReader?, err: Err)
      modifies this`queue
      ensures old(queue) == [] ==> reader == null && err == Broken && queue == []
      ensures old(queue) != [] ==>
                && err == Ok && reader != null && fresh(reader)
                && reader.message == old(queue)[0] && queue == old(queue)[1..]
    {
      if queue == [] {
        return null, Broken;
      }
      reader := new MessageReader(queue[0]);
      err := Ok;
      queue := queue[1..];
    }

    method WriteMessage(b: array<byte>) returns (err: Err)
      modifies this`sent
      ensures err == if closed then Broken else Ok
      ensures sent == if closed then old(sent) else old(sent) + [b[..]]
    {
      if closed {
        return Broken;
      }
      sent, err := sent + [b[..]], Ok;
    }
  }

  class WebSocketConn {
    const ws: Socket
    var reader: MessageReader?

    constructor (ws: Socket)
      ensures this.ws == ws && reader == null
    {
      this.ws, reader := ws, null;
    }

    function View(): Conn
      reads this, ws, reader
    {
      Conn(if reader == null then None else Some(reader.message), ws.queue, ws.chunks)
    }

    method Read(b: array<byte>) returns (n: nat, err: Err)
      modifies this, ws, reader, b
      ensures n <= b.Length && (View(), b[..n], err) == ByteStream.Read(old(View()), b.Length)
      ensures Patient(old(View())) ==> b[n..] == old(b[n..])
      ensures reader == old(reader) || fresh(reader) || reader == null
      ensures ws.sent == old(ws.sent) && ws.closed == old(ws.closed)
      decreases |ws.queue|, reader != null
    {
      if reader == null {
        var next, failed := ws.NextReader();
        if failed != Ok {
          return 0, failed;
        }
        reader := next;
        n, err := Read(b);
        return;
      }
      var chunk := NextChunk(ws.chunks);
      ws.chunks := LaterChunks(ws.chunks);
      n, err := reader.Read(b, chunk);
      if err == EOF {
        reader := null;
        n, err := Read(b);
      }
    }

    method Write(b: array<byte>) returns (n: nat, err: Err)
      modifies ws`sent
      ensures err == Ok ==> n == b.Length && ws.sent == old(ws.sent) + [b[..]]
      ensures err != Ok ==> n == 0 && ws.sent == old(ws.sent) && ws.closed
    {
      err := ws.WriteMessage(b);
      if err != Ok {
        return 0, err;
      }
      return b.Length, Ok;
    }
  }
}
