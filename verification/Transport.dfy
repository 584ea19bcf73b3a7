/** The Python client's line readers over a socket that delivers bytes in pieces of its own choosing. */
module Transport {
  import opened Prelude
  import opened Framing

  const NEWLINE: Byte := 10

  /** A socket: what is still to arrive, and the frames sent so far. */
  class Socket {
    var incoming: Bytes
    var sent: seq<Bytes>

    constructor (incoming: Bytes)
      ensures this.incoming == incoming && sent == []
    {
      this.incoming, sent := incoming, [];
    }

    /** `recv`: at most `limit` bytes, at least one unless the stream has ended. */
    method Recv(limit: nat) returns (chunk: Bytes)
      requires limit > 0
      modifies this`incoming
      ensures old(incoming) == chunk + incoming && |chunk| <= limit
      ensures chunk == [] <==> old(incoming) == []
    {
      var most := if |incoming| < limit then |incoming| else limit;
      var n: nat :| n <= most && (most > 0 ==> n > 0);
      chunk := incoming[..n];
      incoming := incoming[n..];
    }

    method SendAll(bytes: Bytes)
      modifies this`sent
      ensures sent == old(sent) + [bytes]
    {
      sent := sent + [bytes];
    }
  }

  /** The first line of a stream, without its newline; None while there is none. */
  function LineEnd(b: Bytes): (n: Option<nat>)
    ensures n.Some? ==> n.value < |b|
  {
    if b == [] then None
    else if b[0] == NEWLINE then Some(0)
    else
      var rest := LineEnd(b[1..]);
      if rest.None? then None else Some(rest.value + 1)
  }

  lemma {:induction false} LineEndMeans(b: Bytes)
    ensures LineEnd(b).None? ==> NEWLINE !in b
    ensures LineEnd(b).Some? ==> b[LineEnd(b).value] == NEWLINE && NEWLINE !in b[..LineEnd(b).value]
  {
    if b != [] {
      LineEndMeans(b[1..]);
      if b[0] != NEWLINE && LineEnd(b[1..]).Some? {
        var n := LineEnd(b[1..]).value;
        assert b[..n + 1] == [b[0]] + b[1..][..n];
      }
    }
  }

  /** More input does not move the end of a line already complete. */
  lemma {:induction false} LineEndAppend(b: Bytes, more: Bytes)
    ensures LineEnd(b).Some? ==> LineEnd(b + more) == LineEnd(b)
    ensures LineEnd(b).None? && LineEnd(more).Some? ==> LineEnd(b + more) == Some(|b| + LineEnd(more).value)
    ensures LineEnd(b).None? && LineEnd(more).None? ==> LineEnd(b + more).None?
  {
    if b == [] {
      assert b + more == more;
    } else {
      LineEndAppend(b[1..], more);
      assert (b + more)[1..] == b[1..] + more;
    }
  }

  /** The newline-delimited transport. */
  class TcpTransport {
    const sock: Socket
    var buf: Bytes

    constructor (sock: Socket)
      ensures this.sock == sock && buf == []
    {
      this.sock, buf := sock, [];
    }

    /** Everything not yet returned as a line, buffered or still to arrive. */
    function Stream(): Bytes
      reads this, sock
    {
      buf + sock.incoming
    }

    /** `recv_line`: the next line of the stream, however it is cut; an error once there is none. */
    method RecvLine() returns (line: Option<Bytes>)
      modifies this`buf, sock`incoming
      ensures match LineEnd(old(Stream()))
              case Some(n) => line == Some(old(Stream())[..n]) && Stream() == old(Stream())[n + 1..]
              case None => line == None && Stream() == old(Stream())
    {
      ghost var stream := Stream();
      var end := LineEnd(buf);
      while end.None?
        invariant Stream() == stream && end == LineEnd(buf)
        decreases |sock.incoming|
      {
        var data := sock.Recv(4096);
        if data == [] {
          assert buf + [] == buf;
          return None;
        }
        buf := buf + data;
        end := LineEnd(buf);
      }
      LineEndAppend(buf, sock.incoming);
      assert stream[..end.value] == buf[..end.value];
      assert stream[end.value + 1..] == buf[end.value + 1..] + sock.incoming;
      line := Some(buf[..end.value]);
      buf := buf[end.value + 1..];
    }
  }

  /** All complete lines of a stream. */
  function Lines(b: Bytes): seq<Bytes>
    decreases |b|
  {
    var end := LineEnd(b);
    if end.None? then [] else [b[..end.value]] + Lines(b[end.value + 1..])
  }

  /** What `send_line` writes for some lines. */
  function Joined(lines: seq<Bytes>): Bytes {
    if lines == [] then [] else lines[0] + [NEWLINE] + Joined(lines[1..])
  }

  lemma {:induction false} NoEnd(b: Bytes)
    requires NEWLINE !in b
    ensures LineEnd(b).None?
  {
    LineEndMeans(b);
  }

  lemma FirstLine(line: Bytes, more: Bytes)
    requires NEWLINE !in line
    ensures Lines(line + ([NEWLINE] + more)) == [line] + Lines(more)
  {
    var b := line + ([NEWLINE] + more);
    NoEnd(line);
    assert ([NEWLINE] + more)[0] == NEWLINE;
    LineEndAppend(line, [NEWLINE] + more);
    assert b[|line| + 1..] == more && b[..|line|] == line;
  }

  lemma Regroup4(a: Bytes, b: Bytes, c: Bytes, d: Bytes)
    ensures a + b + c + d == a + (b + (c + d))
  {
  }

  /** Lines without newlines read back as sent, with anything incomplete left for later. */
  lemma {:induction false} LinesReadBack(lines: seq<Bytes>, tail: Bytes)
    requires forall i :: 0 <= i < |lines| ==> NEWLINE !in lines[i]
    requires NEWLINE !in tail
    ensures Lines(Joined(lines) + tail) == lines
    decreases |lines|
  {
    if lines == [] {
      assert Joined(lines) + tail == tail;
      NoEnd(tail);
    } else {
      LinesReadBack(lines[1..], tail);
      FirstLine(lines[0], Joined(lines[1..]) + tail);
      Regroup4(lines[0], [NEWLINE], Joined(lines[1..]), tail);
    }
  }

  const CLOSE: nat := 8
  const PING: nat := 9
  const PONG: nat := 10

  /** What reading one message comes to: the data, the pings answered, and the bytes left. */
  datatype Message = Message(data: Bytes, pongs: seq<Bytes>, rest: Bytes) | Failed(pongs: seq<Bytes>)

  function ReadMessage(b: Bytes, data: Bytes, pongs: seq<Bytes>): Message
    decreases |b|
  {
    var read := ClientFrame(b);
    if read.None? then Failed(pongs)
    else
      var Read(f, rest) := read.value;
      if f.opcode == CLOSE || |rest| >= |b| then Failed(pongs)
      else if f.opcode == PING then ReadMessage(rest, data, pongs + [f.payload])
      else if f.opcode == PONG then ReadMessage(rest, data, pongs)
      else if f.fin then Message(data + f.payload, pongs, rest)
      else ReadMessage(rest, data + f.payload, pongs)
  }

  lemma FrameShrinks(b: Bytes)
    ensures ClientFrame(b).Some? ==> |ClientFrame(b).value.rest| < |b|
  {
  }

  predicate IsControl(f: WsFrame) {
    f.opcode == PING || f.opcode == PONG
  }

  /** One message in fragments, pings and pongs between them; only its last data frame is final. */
  predicate Fragments(frames: seq<WsFrame>) {
    && frames != []
    && (forall i :: 0 <= i < |frames| ==> WellFormed(frames[i]) && frames[i].opcode != CLOSE)
    && !IsControl(frames[|frames| - 1]) && frames[|frames| - 1].fin
    && (forall i :: 0 <= i < |frames| - 1 ==> IsControl(frames[i]) || !frames[i].fin)
  }

  function Data(frames: seq<WsFrame>): Bytes {
    if frames == [] then [] else (if IsControl(frames[0]) then [] else frames[0].payload) + Data(frames[1..])
  }

  function Pings(frames: seq<WsFrame>): seq<Bytes> {
    if frames == [] then [] else (if frames[0].opcode == PING then [frames[0].payload] else []) + Pings(frames[1..])
  }

  function Wire(frames: seq<WsFrame>): Bytes
    requires forall i :: 0 <= i < |frames| ==> WellFormed(frames[i])
  {
    if frames == [] then [] else ServerFrame(frames[0]) + Wire(frames[1..])
  }

  /** One frame off the wire. */
  lemma ReadStep(f: WsFrame, rest: Bytes, data: Bytes, pongs: seq<Bytes>)
    requires WellFormed(f) && f.opcode != CLOSE
    ensures ReadMessage(ServerFrame(f) + rest, data, pongs) ==
            if !IsControl(f) && f.fin then Message(data + f.payload, pongs, rest)
            else ReadMessage(rest, DataAfter(f, data), PongsAfter(f, pongs))
  {
    ServerReadsBack(f, rest);
  }

  /** Section 5.4: any fragmentation, with any pings and pongs in between, gives back the message. */
  lemma {:induction false} FragmentsReassemble(frames: seq<WsFrame>, rest: Bytes, data: Bytes, pongs: seq<Bytes>)
    requires Fragments(frames)
    ensures ReadMessage(Wire(frames) + rest, data, pongs) == Message(data + Data(frames), pongs + Pings(frames), rest)
    decreases |frames|
  {
    var f := frames[0];
    var after := Wire(frames[1..]) + rest;
    assert Wire(frames) + rest == ServerFrame(f) + after;
    ReadStep(f, after, data, pongs);
    if |frames| == 1 {
      assert after == rest;
      assert f.payload + [] == f.payload && pongs + [] == pongs;
    } else {
      RestFragments(frames);
      FragmentsReassemble(frames[1..], rest, DataAfter(f, data), PongsAfter(f, pongs));
      Accumulates(frames, data, pongs);
    }
  }

  function DataAfter(f: WsFrame, data: Bytes): Bytes {
    if IsControl(f) then data else data + f.payload
  }

  function PongsAfter(f: WsFrame, pongs: seq<Bytes>): seq<Bytes> {
    if f.opcode == PING then pongs + [f.payload] else pongs
  }

  lemma Accumulates(frames: seq<WsFrame>, data: Bytes, pongs: seq<Bytes>)
    requires frames != []
    ensures DataAfter(frames[0], data) + Data(frames[1..]) == data + Data(frames)
    ensures PongsAfter(frames[0], pongs) + Pings(frames[1..]) == pongs + Pings(frames)
  {
    var f := frames[0];
    if IsControl(f) {
      assert Data(frames) == Data(frames[1..]);
    } else {
      Regroup(data, f.payload, Data(frames[1..]));
    }
    if f.opcode == PING {
      Regroup(pongs, [f.payload], Pings(frames[1..]));
    } else {
      assert Pings(frames) == Pings(frames[1..]);
    }
  }

  lemma Regroup<A>(a: seq<A>, b: seq<A>, c: seq<A>)
    ensures (a + b) + c == a + (b + c)
  {
  }

  lemma RestFragments(frames: seq<WsFrame>)
    requires Fragments(frames) && |frames| > 1
    ensures Fragments(frames[1..])
  {
    var rest := frames[1..];
    assert forall i :: 0 <= i < |rest| ==> rest[i] == frames[i + 1];
  }

  /** What a peer reads from a pong the client sent. */
  predicate IsPong(wire: Bytes, payload: Bytes) {
    ReadFrame(wire) == Some(Read(WsFrame(true, PONG, payload), []))
  }

  /** The new entries of the sent log are pongs for these payloads. */
  predicate Answers(before: seq<Bytes>, after: seq<Bytes>, pongs: seq<Bytes>) {
    && |after| == |before| + |pongs| && before <= after
    && forall i :: 0 <= i < |pongs| ==> IsPong(after[|before| + i], pongs[i])
  }

  lemma AnswersMore(before: seq<Bytes>, mid: seq<Bytes>, after: seq<Bytes>, pongs: seq<Bytes>, payload: Bytes)
    requires Answers(before, mid, pongs) && |after| == |mid| + 1 && mid <= after && IsPong(after[|mid|], payload)
    ensures Answers(before, after, pongs + [payload])
  {
    forall i | 0 <= i < |pongs + [payload]|
      ensures IsPong(after[|before| + i], (pongs + [payload])[i])
    {
      if i < |pongs| {
        assert IsPong(mid[|before| + i], pongs[i]);
      }
    }
  }

  /** The WebSocket transport. */
  class WsTransport {
    const sock: Socket

    constructor (sock: Socket)
      ensures this.sock == sock
    {
      this.sock := sock;
    }

    /** `_recv_exact`: `n` bytes, collected from as many pieces as it takes. */
    method RecvExact(n: nat) returns (bytes: Option<Bytes>)
      modifies sock`incoming
      ensures if n <= |old(sock.incoming)|
              then bytes == Some(old(sock.incoming)[..n]) && sock.incoming == old(sock.incoming)[n..]
              else bytes == None
    {
      ghost var stream := sock.incoming;
      var buf: Bytes := [];
      while |buf| < n
        invariant |buf| <= n && stream == buf + sock.incoming
        decreases |sock.incoming|
      {
        var chunk := sock.Recv(n - |buf|);
        if chunk == [] {
          return None;
        }
        buf := buf + chunk;
      }
      return Some(buf);
    }

    /** The length after the first two octets, taken from the stream. */
    method RecvLength(short: nat) returns (length: Option<nat>)
      requires short < 128
      modifies sock`incoming
      ensures var extra := if short == 126 then 2 else if short == 127 then 8 else 0;
              if extra == 0 then length == Some(short) && sock.incoming == old(sock.incoming)
              else if extra <= |old(sock.incoming)|
              then (&& length == Some(FromBytes(old(sock.incoming)[..extra]))
                    && sock.incoming == old(sock.incoming)[extra..])
              else length == None
    {
      if short < 126 {
        return Some(short);
      }
      var extended := RecvExact(if short == 126 then 2 else 8);
      if extended.None? {
        return None;
      }
      return Some(FromBytes(extended.value));
    }

    /** `_recv_frame`. */
    method RecvFrame() returns (frame: Option<WsFrame>)
      modifies sock`incoming
      ensures match ClientFrame(old(sock.incoming))
              case Some(read) => frame == Some(read.frame) && sock.incoming == read.rest
              case None => frame == None
    {
      ghost var b := sock.incoming;
      var first := RecvExact(2);
      if first.None? {
        return None;
      }
      var b0, b1 := first.value[0], first.value[1];
      var length := RecvLength(b1 % 128);
      LengthSplit(b);
      if length.None? {
        return None;
      }
      var payload: Option<Bytes> := Some([]);
      if length.value > 0 {
        payload := RecvExact(length.value);
      }
      if payload.None? {
        return None;
      }
      return Some(WsFrame(b0 >= FIN, b0 % 16, payload.value));
    }

    /** `recv_line`: collect fragments until the final one, answering pings on the way. */
    method RecvLine() returns (line: Option<Bytes>, ghost pongs: seq<Bytes>)
      modifies sock
      ensures match ReadMessage(old(sock.incoming), [], [])
              case Message(data, answered, rest) =>
                line == Some(data) && pongs == answered && sock.incoming == rest
              case Failed(answered) => line == None && pongs == answered
      ensures Answers(old(sock.sent), sock.sent, pongs)
    {
      var data: Bytes := [];
      pongs := [];
      while true
        invariant ReadMessage(sock.incoming, data, pongs) == ReadMessage(old(sock.incoming), [], [])
        invariant Answers(old(sock.sent), sock.sent, pongs)
        decreases |sock.incoming|
      {
        FrameShrinks(sock.incoming);
        ClientPayloadBound(sock.incoming);
        var frame := RecvFrame();
        if frame.None? || frame.value.opcode == CLOSE {
          return None, pongs;
        }
        if frame.value.opcode == PING {
          ghost var log := sock.sent;
          Pong(frame.value.payload);
          AnswersMore(old(sock.sent), log, sock.sent, pongs, frame.value.payload);
          pongs := pongs + [frame.value.payload];
        } else if frame.value.opcode != PONG {
          data := data + frame.value.payload;
          if frame.value.fin {
            return Some(data), pongs;
          }
        }
      }
    }

    /** A pong for a ping's payload, under a random mask. */
    method Pong(payload: Bytes)
      requires |payload| < MAX_LENGTH
      modifies sock`sent
      ensures |sock.sent| == |old(sock.sent)| + 1 && old(sock.sent) <= sock.sent
      ensures IsPong(sock.sent[|old(sock.sent)|], payload)
    {
      var a: Byte, b: Byte, c: Byte, d: Byte := *, *, *, *;
      var mask: Bytes := [a, b, c, d];
      var wire := SendFrame(PONG, payload, mask);
      SentReadsBack(PONG, payload, mask, []);
      assert wire + [] == wire;
      sock.SendAll(wire);
    }
  }

  lemma LengthSplit(b: Bytes)
    requires |b| >= 2
    ensures ReadLength(b[1..]) ==
            (var short := b[1] % 128;
             var extra := if short == 126 then 2 else if short == 127 then 8 else 0;
             if |b| < 2 + extra then None
             else Some(LengthRead(if extra == 0 then short else FromBytes(b[2..][..extra]), b[2..][extra..])))
  {
    var short := b[1] % 128;
    var extra := if short == 126 then 2 else if short == 127 then 8 else 0;
    if |b| >= 2 + extra {
      assert b[1..][1..1 + extra] == b[2..][..extra];
      assert b[1..][1 + extra..] == b[2..][extra..];
    }
  }
}
