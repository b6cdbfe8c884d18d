/** Per-connection buffers and contexts: the client manager and the raw context arrays. */
module ClientManagement {
  import opened Wrappers
  import opened FixedFields
  import opened Models
  import opened Protocol
  import opened Commands
  import opened ServerState

  /** Client::copyUuid: fill with NULs, then copy what fits. */
  method CopyUuid(destination: array<char>, source: string)
    requires destination.Length > 0
    modifies destination
    ensures destination[..] == Padded(destination.Length, source)
  {
    var i := 0;
    while i < destination.Length
      invariant 0 <= i <= destination.Length
      invariant destination[..i] == Zeros(i)
    {
      destination[i] := NUL;
      i := i + 1;
    }
    assert destination[..] == Zeros(destination.Length);
    var copiedLength := if |source| < destination.Length - 1 then |source| else destination.Length - 1;
    i := 0;
    while i < copiedLength
      invariant 0 <= i <= copiedLength
      invariant destination[..i] == source[..i]
      invariant destination[i..] == Zeros(destination.Length - i)
    {
      assert destination[i + 1..] == Zeros(destination.Length - i)[1..];
      destination[i] := source[i];
      i := i + 1;
    }
    assert destination[..] == source[..copiedLength] + Zeros(destination.Length - copiedLength);
    assert Clip(destination.Length, source) == source[..copiedLength];
    assert Zeros(destination.Length - copiedLength) == [NUL] + Zeros(destination.Length)[copiedLength + 1..];
  }

  /** Client::readUuid: up to the first NUL. */
  method ReadUuid(source: array<char>) returns (uuid: string)
    ensures uuid == CString(source[..])
  {
    var end := 0;
    while end < source.Length && source[end] != NUL
      invariant 0 <= end <= source.Length
      invariant NUL !in source[..end]
    {
      end := end + 1;
    }
    uuid := source[..end];
    CStringOfClean(uuid);
    if end < source.Length {
      CStringStops(uuid, source[end + 1..]);
      assert source[..] == uuid + [NUL] + source[end + 1..];
    } else {
      assert source[..] == uuid;
    }
  }

  /** ClientManager: operations on unknown descriptors do nothing. */
  class ClientManager {
    var clients: map<int, Client>

    constructor ()
      ensures clients == map[]
    {
      clients := map[];
    }

    method AddClient(fd: int)
      modifies this
      ensures clients == if fd in old(clients) then old(clients) else old(clients)[fd := FreshClient]
    {
      if fd !in clients {
        clients := clients[fd := FreshClient];
      }
    }

    method RemoveClient(fd: int)
      modifies this
      ensures clients == old(clients) - {fd}
    {
      clients := clients - {fd};
    }

    predicate HasPendingWrite(fd: int)
      reads this
    {
      fd in clients && clients[fd].outgoing != ""
    }

    method AppendToIncomingBuffer(fd: int, data: string)
      modifies this
      ensures clients == if fd in old(clients) then old(clients)[fd := old(clients)[fd].(incoming := old(clients)[fd].incoming + data)]
                         else old(clients)
    {
      if fd !in clients || data == "" {
        assert fd in clients ==> clients[fd].incoming + data == clients[fd].incoming;
        return;
      }
      clients := clients[fd := clients[fd].(incoming := clients[fd].incoming + data)];
    }

    function GetIncomingBuffer(fd: int): string
      reads this
    {
      if fd in clients then clients[fd].incoming else ""
    }

    /** Dropping more than the buffer holds empties it. */
    method ConsumeIncomingBuffer(fd: int, consumedBytes: nat)
      modifies this
      ensures clients.Keys == old(clients).Keys
      ensures fd in clients ==>
                var before := old(clients)[fd].incoming;
                && clients == old(clients)[fd := old(clients)[fd].(incoming := clients[fd].incoming)]
                && clients[fd].incoming == if consumedBytes <= |before| then before[consumedBytes..] else ""
      ensures fd !in clients ==> clients == old(clients)
    {
      if fd !in clients {
        return;
      }
      var buffer := clients[fd].incoming;
      if consumedBytes >= |buffer| {
        clients := clients[fd := clients[fd].(incoming := "")];
        return;
      }
      clients := clients[fd := clients[fd].(incoming := buffer[consumedBytes..])];
    }

    /** queueDataToSend with an encoded packet. */
    method QueueDataToSend(fd: int, data: string)
      modifies this
      ensures clients == if fd in old(clients) then old(clients)[fd := old(clients)[fd].(outgoing := old(clients)[fd].outgoing + data)]
                         else old(clients)
      ensures forall p: Packet :: data == Encode(p) ==> clients == QueueOne(old(clients), fd, p)
    {
      if fd !in clients || data == "" {
        assert fd in clients ==> clients[fd].outgoing + data == clients[fd].outgoing;
        return;
      }
      clients := clients[fd := clients[fd].(outgoing := clients[fd].outgoing + data)];
    }

    function GetQueuedData(fd: int): string
      reads this
    {
      if fd in clients then clients[fd].outgoing else ""
    }

    method ConsumeQueuedData(fd: int, consumedBytes: nat)
      modifies this
      ensures clients.Keys == old(clients).Keys
      ensures fd in clients ==>
                var before := old(clients)[fd].outgoing;
                && clients == old(clients)[fd := old(clients)[fd].(outgoing := clients[fd].outgoing)]
                && clients[fd].outgoing == if consumedBytes <= |before| then before[consumedBytes..] else ""
      ensures fd !in clients ==> clients == old(clients)
    {
      if fd !in clients {
        return;
      }
      var buffer := clients[fd].outgoing;
      if consumedBytes >= |buffer| {
        clients := clients[fd := clients[fd].(outgoing := "")];
        return;
      }
      clients := clients[fd := clients[fd].(outgoing := buffer[consumedBytes..])];
    }

    method SetContext(fd: int, c: Context)
      modifies this
      ensures clients == WithContext(old(clients), fd, Some(c))
    {
      if fd !in clients {
        return;
      }
      var team, channel, thread := new char[UUID_LENGTH], new char[UUID_LENGTH], new char[UUID_LENGTH];
      CopyUuid(team, c.team);
      CopyUuid(channel, c.channel);
      CopyUuid(thread, c.thread);
      clients := clients[fd := clients[fd].(team := team[..], channel := channel[..], thread := thread[..])];
    }

    function GetContext(fd: int): Context
      reads this
    {
      if fd in clients then clients[fd].GetContext() else NoContext
    }
  }
}
