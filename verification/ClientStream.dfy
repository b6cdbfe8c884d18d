/** The client's side of the wire: exact reads over a socket that yields bytes in arbitrary pieces, a
    send loop over partial writes, and replies picked out from among events. */
module ClientStream {
  import opened Protocol

  /** A connected socket: the bytes not read yet, arrived or still to arrive, and the bytes written. */
  class Socket {
    var pending: string
    var sent: string

    /** Any number of the next bytes, none when they have not arrived; ok is false when the peer closed. */
    method Read(size: nat) returns (ok: bool, chunk: string)
      modifies this`pending
      ensures |chunk| <= size && old(pending) == chunk + pending
      ensures !ok ==> chunk == ""
    {
      ok := *;
      var n: nat :| n <= size && n <= |pending|;
      if !ok {
        n := 0;
      }
      chunk := pending[..n];
      pending := pending[n..];
    }

    /** Any prefix of the data may be taken. */
    method Write(data: string) returns (count: nat)
      modifies this`sent
      ensures count <= |data| && sent == old(sent) + data[..count]
    {
      count :| count <= |data|;
      sent := sent + data[..count];
    }

    function Inbox(): seq<Packet>
      reads this`pending
    {
      Parse(pending).packets
    }
  }

  const MAX_CONSECUTIVE_EMPTY_READS := 2500

  /** readExact: all the wanted bytes, or a failure after too many empty reads in a row. */
  method ReadExact(socket: Socket, wantedSize: nat) returns (ok: bool, buffer: string)
    modifies socket`pending
    ensures old(socket.pending) == buffer + socket.pending
    ensures if ok then |buffer| == wantedSize else |buffer| < wantedSize
  {
    buffer := "";
    var consecutiveEmptyReads := 0;
    assert socket.pending == buffer + socket.pending;
    while |buffer| < wantedSize
      invariant |buffer| <= wantedSize
      invariant old(socket.pending) == buffer + socket.pending
      decreases wantedSize - |buffer|, MAX_CONSECUTIVE_EMPTY_READS - consecutiveEmptyReads
    {
      ghost var before := socket.pending;
      var open, chunk := socket.Read(wantedSize - |buffer|);
      assert buffer + before == buffer + chunk + socket.pending;
      if !open {
        assert chunk == "" && buffer + chunk == buffer;
        return false, buffer;
      }
      if chunk == "" {
        assert buffer + chunk == buffer;
        consecutiveEmptyReads := consecutiveEmptyReads + 1;
        if consecutiveEmptyReads >= MAX_CONSECUTIVE_EMPTY_READS {
          return false, buffer;
        }
        continue;
      }
      consecutiveEmptyReads := 0;
      buffer := buffer + chunk;
    }
    ok := true;
  }

  /** sendPacket: exactly the packet, or a proper prefix of it and a failure. */
  method SendPacket(socket: Socket, packet: string) returns (ok: bool, offset: nat)
    modifies socket`sent
    ensures offset <= |packet| && socket.sent == old(socket.sent) + packet[..offset]
    ensures ok <==> offset == |packet|
    ensures ok ==> socket.sent == old(socket.sent) + packet
  {
    offset := 0;
    while offset < |packet|
      invariant offset <= |packet|
      invariant socket.sent == old(socket.sent) + packet[..offset]
    {
      var bytesWritten := socket.Write(packet[offset..]);
      if bytesWritten == 0 {
        return false, offset;
      }
      assert packet[..offset + bytesWritten] == packet[..offset] + packet[offset..][..bytesWritten];
      offset := offset + bytesWritten;
    }
    assert packet[..offset] == packet;
    ok := true;
  }

  lemma {:induction false} HeadIsPrefix(b: string, header: string, payload: string, rest: string)
    requires b == header + payload + rest && |header| == HEADER_SIZE
    requires |payload| == FromU16(header[2], header[3])
    ensures HasPacket(b) && HeadPacket(b) == Packet(FromU16(header[0], header[1]), payload) && b[HeadSize(b)..] == rest
  {
  }

  /** readServerPacket: one whole packet off the stream. */
  method ReadServerPacket(socket: Socket) returns (ok: bool, p: Packet)
    modifies socket`pending
    ensures ok ==> HasPacket(old(socket.pending)) && p == HeadPacket(old(socket.pending))
    ensures ok ==> socket.pending == old(socket.pending)[HeadSize(old(socket.pending))..]
  {
    ghost var before := socket.pending;
    p := Packet(0, "");
    var header, payload;
    ok, header := ReadExact(socket, HEADER_SIZE);
    if !ok {
      return;
    }
    ghost var between := socket.pending;
    var size := FromU16(header[2], header[3]);
    if size == 0 {
      payload := "";
      assert between == payload + socket.pending;
    } else {
      ok, payload := ReadExact(socket, size);
      if !ok {
        return;
      }
    }
    assert before == header + payload + socket.pending;
    HeadIsPrefix(before, header, payload, socket.pending);
    p := Packet(FromU16(header[0], header[1]), payload);
  }

  /** The inbox once the events at its front are dropped. */
  function AfterEvents(inbox: seq<Packet>): (r: seq<Packet>)
    ensures r != [] ==> !IsEvent(r[0])
    ensures |r| <= |inbox| && r == inbox[|inbox| - |r|..]
  {
    if inbox == [] then [] else if IsEvent(inbox[0]) then AfterEvents(inbox[1..]) else inbox
  }

  /** readServerReply: handle events until something else comes. */
  method ReadServerReply(socket: Socket) returns (ok: bool, p: Packet)
    modifies socket`pending
    ensures ok ==> AfterEvents(old(socket.Inbox())) == [p] + socket.Inbox() && |socket.pending| < |old(socket.pending)|
  {
    while true
      invariant AfterEvents(socket.Inbox()) == AfterEvents(old(socket.Inbox()))
      invariant |socket.pending| <= |old(socket.pending)|
      decreases |socket.pending|
    {
      ghost var inbox := socket.Inbox();
      ok, p := ReadServerPacket(socket);
      if !ok {
        return;
      }
      assert inbox == [p] + socket.Inbox();
      if !IsEvent(p) {
        return;
      }
    }
  }

  /** handleEvent: between two commands, read packets for as long as some are there, showing the events. */
  method DrainEvents(socket: Socket) returns (ok: bool, ghost drained: seq<Packet>)
    modifies socket`pending
    ensures ok ==> old(socket.Inbox()) == drained + socket.Inbox()
  {
    ok, drained := true, [];
    assert socket.Inbox() == [] + socket.Inbox();
    var readable: bool := *;
    while readable
      invariant ok && old(socket.Inbox()) == drained + socket.Inbox()
      decreases |socket.pending|, readable
    {
      var p;
      ghost var inbox := socket.Inbox();
      ok, p := ReadServerPacket(socket);
      if !ok {
        return;
      }
      assert inbox == [p] + socket.Inbox();
      assert drained + ([p] + socket.Inbox()) == drained + [p] + socket.Inbox();
      drained := drained + [p];
      readable := *;
    }
  }
}
