/** The line that tells a tunnel client where to dial, written by the server and read byte by byte by the
    client (internal/tunnel/server.go, internal/tunnel/client.go). */
module TunnelHeader {

  const MAX_HEADER := 256

  datatype Header = Header(target: string, unread: string) | TooLong(unread: string) | Ended

  /** What the client makes of a stream, after it has taken this much of the line. */
  function ReadHeader(got: string, unread: string): Header
    decreases |unread|
  {
    if unread == "" then Ended
    else if unread[0] == '\n' then Header(got, unread[1..])
    else if |got| + 1 > MAX_HEADER then TooLong(unread[1..])
    else ReadHeader(got + [unread[0]], unread[1..])
  }

  /** What the server writes before it starts to copy. */
  function WriteHeader(target: string): string {
    target + "\n"
  }

  /** The first newline of a text settles how it splits into a line and the rest. */
  lemma LineIsUnique(line: string, rest: string, line2: string, rest2: string)
    requires line + "\n" + rest == line2 + "\n" + rest2 && '\n' !in line && '\n' !in line2
    ensures line == line2 && rest == rest2
  {
    var s := line + "\n" + rest;
    assert s[|line|] == '\n' && s[|line2|] == '\n';
    forall k | 0 <= k < |line| ensures s[k] != '\n' {
      assert s[k] == line[k];
    }
    forall k | 0 <= k < |line2| ensures s[k] != '\n' {
      assert s[k] == line2[k];
    }
    assert line == s[..|line|] && line2 == s[..|line2|];
    assert rest == s[|line| + 1..] && rest2 == s[|line2| + 1..];
  }

  /** How the client's loop ends, in terms of the whole stream. */
  ghost predicate Explains(stream: string, h: Header) {
    match h
    case Header(target, unread) =>
      stream == target + "\n" + unread && '\n' !in target && |target| <= MAX_HEADER
    case TooLong(unread) =>
      |stream| > MAX_HEADER && '\n' !in stream[..MAX_HEADER + 1] && unread == stream[MAX_HEADER + 1..]
    case Ended => |stream| <= MAX_HEADER && '\n' !in stream
  }

  lemma {:induction false} LoopExplains(got: string, unread: string)
    requires '\n' !in got && |got| <= MAX_HEADER
    ensures Explains(got + unread, ReadHeader(got, unread))
    decreases |unread|
  {
    if unread == "" {
      assert got + unread == got;
    } else if unread[0] == '\n' {
      assert got + unread == got + "\n" + unread[1..];
    } else if |got| + 1 > MAX_HEADER {
      assert (got + unread)[..MAX_HEADER + 1] == got + [unread[0]];
      assert (got + unread)[MAX_HEADER + 1..] == unread[1..];
    } else {
      assert got + unread == (got + [unread[0]]) + unread[1..];
      LoopExplains(got + [unread[0]], unread[1..]);
    }
  }

  /** The client finds a target and a payload exactly if the stream is that target, a newline and that
      payload, with no newline in the target and at most 256 bytes of it. */
  lemma HeaderExactly(stream: string, target: string, payload: string)
    ensures ReadHeader("", stream) == Header(target, payload) <==>
            stream == WriteHeader(target) + payload && '\n' !in target && |target| <= 256
  {
    LoopExplains("", stream);
    assert "" + stream == stream;
    if stream == target + "\n" + payload && '\n' !in target && |target| <= MAX_HEADER {
      assert stream[|target|] == '\n';
      assert |stream| > MAX_HEADER ==> stream[..MAX_HEADER + 1][|target|] == '\n';
      var h := ReadHeader("", stream);
      if h.Header? {
        LineIsUnique(target, payload, h.target, h.unread);
      }
    }
  }

  /** A header without a newline in its first 257 bytes is rejected, and only such a one is. */
  lemma RejectedExactly(stream: string)
    ensures ReadHeader("", stream).TooLong? <==> |stream| > 256 && '\n' !in stream[..257]
    ensures ReadHeader("", stream).Ended? <==> |stream| <= 256 && '\n' !in stream
  {
    LoopExplains("", stream);
    assert "" + stream == stream;
    match ReadHeader("", stream) {
      case Header(target, unread) =>
        assert stream[|target|] == '\n';
        assert |stream| > MAX_HEADER ==> stream[..MAX_HEADER + 1][|target|] == '\n';
      case _ =>
    }
  }

  // ---- The client's loop ----

  /** A reliable stream of bytes, as the multiplexer provides it. */
  class Stream {
    var unread: string

    constructor (unread: string)
      ensures this.unread == unread
    {
      this.unread := unread;
    }

    method Read(buf: array<char>) returns (ok: bool)
      requires buf.Length == 1
      modifies this, buf
      ensures ok == (old(unread) != "")
      ensures if ok then buf[0] == old(unread)[0] && unread == old(unread)[1..] else unread == ""
    {
      ok := unread != "";
      if ok {
        buf[0], unread := unread[0], unread[1..];
      }
    }
  }

  /** The loop of handleStream up to the dial; the stream is left at the payload. */
  method ReadTarget(stream: Stream) returns (h: Header)
    modifies stream
    ensures h == ReadHeader("", old(stream.unread))
    ensures h.Header? ==> stream.unread == h.unread
    ensures h.TooLong? ==> stream.unread == h.unread
    ensures h.Ended? ==> stream.unread == ""
  {
    var targetAddr := "";
    var buf := new char[1];
    while true
      invariant ReadHeader(targetAddr, stream.unread) == ReadHeader("", old(stream.unread))
      invariant fresh(buf)
      decreases |stream.unread|
    {
      var ok := stream.Read(buf);
      if !ok {
        return Ended;
      }
      if buf[0] == '\n' {
        break;
      }
      targetAddr := targetAddr + [buf[0]];
      if |targetAddr| > MAX_HEADER {
        return TooLong(stream.unread);
      }
    }
    h := Header(targetAddr, stream.unread);
  }
}
