/** The client's commands: what each sends, how it reads the answer, and what it remembers. */
module ClientCommands {
  import opened Wrappers
  import opened FixedFields
  import opened Models
  import opened Protocol
  import opened Commands
  import opened CommandInvariant
  import opened ClientStream
  import opened Lockstep

  /** What the client remembers between commands. */
  datatype ClientView = ClientView(connected: bool, username: string, context: Context)

  const NewView := ClientView(false, "", NoContext)

  /** A command line, arguments parsed. A missing argument is empty. */
  datatype UserCommand =
    | DoLogin(name: string) | DoLogout | DoUse(c: Context) | DoCreate(first: string, second: string)
    | DoUsers | DoUser(uuid: string) | DoSend(uuid: string, body: string) | DoMessages(uuid: string)
    | DoSubscribe(uuid: string) | DoUnsubscribe(uuid: string) | DoSubscribed(filter: Option<string>)
    | DoList | DoInfo

  function InferCreateTarget(c: Context): CreateTarget {
    if c.team == "" then MakesTeam else if c.channel == "" then MakesChannel else if c.thread == "" then MakesThread else MakesReply
  }

  function CreatePayload(target: CreateTarget, first: string, second: string): Option<string> {
    if target == MakesReply then
      if first == "" || second != "" then None else Some(Padded(BODY_LENGTH, first))
    else if first == "" || second == "" then None
    else if target == MakesThread then Some(Padded(NAME_LENGTH, first) + Padded(BODY_LENGTH, second))
    else Some(Padded(NAME_LENGTH, first) + Padded(DESCRIPTION_LENGTH, second))
  }

  function UuidRequest(code: nat, uuid: string): Option<Packet> {
    if IsUuid(uuid) then Some(Packet(code, Padded(UUID_LENGTH, uuid))) else None
  }

  /** The packet a command sends, None when the client refuses it by itself. */
  function RequestFor(view: ClientView, command: UserCommand): Option<Packet> {
    match command
    case DoLogin(name) => if view.connected || name == "" then None else Some(Packet(CMD_LOGIN, Padded(NAME_LENGTH, name)))
    case DoLogout => if view.connected then Some(Packet(CMD_LOGOUT, "")) else None
    case DoUse(c) =>
      if ContextOk(c) then
        Some(Packet(CMD_USE, Padded(UUID_LENGTH, c.team) + Padded(UUID_LENGTH, c.channel) + Padded(UUID_LENGTH, c.thread)))
      else None
    case DoCreate(first, second) =>
      var payload := CreatePayload(InferCreateTarget(view.context), first, second);
      if view.connected && payload.Some? then Some(Packet(CMD_CREATE, payload.value)) else None
    case DoUsers => Some(Packet(CMD_USERS, ""))
    case DoUser(uuid) => UuidRequest(CMD_USER_INFO, uuid)
    case DoSend(uuid, body) =>
      if IsUuid(uuid) && body != "" then Some(Packet(CMD_SEND, Padded(UUID_LENGTH, uuid) + Padded(BODY_LENGTH, body))) else None
    case DoMessages(uuid) => UuidRequest(CMD_MESSAGES, uuid)
    case DoSubscribe(uuid) => UuidRequest(CMD_SUBSCRIBE, uuid)
    case DoUnsubscribe(uuid) => UuidRequest(CMD_UNSUBSCRIBE, uuid)
    case DoSubscribed(None) => Some(Packet(CMD_SUBSCRIBED_LIST, ""))
    case DoSubscribed(Some(uuid)) => UuidRequest(CMD_SUBSCRIBED_LIST, uuid)
    case DoList => Some(Packet(CMD_LIST, ""))
    case DoInfo => Some(Packet(CMD_INFO, ""))
  }

  /** What the client remembers after the first reply to a command has this code. */
  function ViewAfter(view: ClientView, command: UserCommand, code: nat): ClientView {
    if code != RPL_OK then view
    else
      match command
      case DoLogin(name) => view.(connected := true, username := name)
      case DoLogout => NewView
      case DoUse(c) => view.(context := c)
      case _ => view
  }

  /** The next packet that is not an event. */
  function NextReplyOf(inbox: seq<Packet>): Option<Packet> {
    if AfterEvents(inbox) == [] then None else Some(AfterEvents(inbox)[0])
  }

  /** What the client remembers after a command, given the packets waiting for it. */
  function ViewThen(view: ClientView, command: UserCommand, inbox: seq<Packet>): ClientView {
    match NextReplyOf(inbox)
    case None => view
    case Some(p) => ViewAfter(view, command, p.code)
  }

  /** Commands answered by one packet. */
  predicate TakesOneReply(code: nat) {
    code != CMD_LIST && code != CMD_SUBSCRIBED_LIST && code != CMD_MESSAGES && code != CMD_USERS && code != CMD_USER_INFO
  }

  function GoesOn(request: Packet, reaction: Reaction, inbox: seq<Packet>): Option<seq<Packet>> {
    match reaction
    case Stop => Some(inbox)
    case Continue(e) => Consume(request, e, inbox)
  }

  /** One reply read, the loop goes on or stops. */
  lemma {:induction false} ConsumeStep(request: Packet, expected: nat, inbox: seq<Packet>, reply: Packet, rest: seq<Packet>)
    requires AfterEvents(inbox) == [reply] + rest
    ensures NextReplyOf(inbox) == Some(reply)
    ensures Consume(request, expected, inbox) == GoesOn(request, React(request, expected, reply), rest)
  {
    Uncons(AfterEvents(inbox), reply, rest);
  }

  lemma {:induction false} Uncons(ready: seq<Packet>, reply: Packet, rest: seq<Packet>)
    requires ready == [reply] + rest
    ensures ready != [] && ready[0] == reply && ready[1..] == rest
  {
  }

  /** The reactions of the loops that fix no list code, one by one. */
  lemma {:induction false} PlainReactions(request: Packet, expected: nat, p: Packet)
    ensures request.code == CMD_SUBSCRIBED_LIST ==>
              (React(request, expected, p).Stop? <==> p.code != (if request.payload == "" then RPL_SUBSCRIBED_LIST else RPL_USERS_LIST))
    ensures request.code == CMD_MESSAGES ==> (React(request, expected, p).Stop? <==> p.code != RPL_MESSAGES_LIST)
    ensures request.code == CMD_USERS ==> (React(request, expected, p).Stop? <==> p.code != RPL_USERS_LIST || |p.payload| != 73)
    ensures request.code == CMD_USER_INFO ==> (React(request, expected, p).Stop? <==> p.code != RPL_OK)
  {
  }

  class CommandClient {
    const socket: Socket
    var connected: bool
    var username: string
    var context: Context

    ghost function View(): ClientView
      reads this
    {
      ClientView(connected, username, context)
    }

    constructor (socket: Socket)
      ensures this.socket == socket && View() == NewView
    {
      this.socket := socket;
      connected, username, context := false, "", NoContext;
    }

    /** The request went out and exactly its answer was consumed. */
    twostate predicate Asked(request: Packet)
      reads socket
    {
      && socket.sent == old(socket.sent) + Encode(request)
      && Consume(request, 0, old(socket.Inbox())) == Some(socket.Inbox())
    }

    method Send(request: Packet) returns (done: bool)
      modifies socket`sent
      ensures done ==> socket.sent == old(socket.sent) + Encode(request)
    {
      var offset;
      done, offset := SendPacket(socket, Encode(request));
    }

    /** A loop expecting this list code will leave exactly these packets. */
    ghost predicate WillLeave(request: Packet, expected: nat, left: Option<seq<Packet>>)
      reads socket`pending
    {
      Consume(request, expected, socket.Inbox()) == left
    }

    /** One reply for a loop that will leave `left`. */
    method AwaitReply(ghost request: Packet, ghost expected: nat, ghost left: Option<seq<Packet>>)
      returns (done: bool, reply: Packet, ghost reaction: Reaction)
      requires WillLeave(request, expected, left)
      modifies socket`pending
      ensures done ==> NextReplyOf(old(socket.Inbox())) == Some(reply) && |socket.pending| < |old(socket.pending)|
      ensures reaction == React(request, expected, reply)
      ensures done ==> if reaction.Stop? then left == Some(socket.Inbox()) else WillLeave(request, reaction.expected, left)
    {
      ghost var inbox := socket.Inbox();
      done, reply := ReadServerReply(socket);
      reaction := React(request, expected, reply);
      if done {
        ConsumeStep(request, expected, inbox, reply, socket.Inbox());
      }
    }

    /** Send a request that takes a single reply, and wait for it. */
    method Exchange(request: Packet) returns (done: bool, reply: Packet)
      requires TakesOneReply(request.code)
      modifies socket
      ensures done ==> Asked(request) && NextReplyOf(old(socket.Inbox())) == Some(reply)
    {
      reply := Packet(0, "");
      done := Send(request);
      if done {
        ghost var reaction;
        done, reply, reaction := AwaitReply(request, 0, Consume(request, 0, socket.Inbox()));
      }
    }

    method HandleLogin(name: string) returns (done: bool)
      modifies this, socket
      ensures RequestFor(old(View()), DoLogin(name)).None? ==> View() == old(View()) && unchanged(socket)
      ensures done && RequestFor(old(View()), DoLogin(name)).Some? ==>
                var request := RequestFor(old(View()), DoLogin(name)).value;
                && Asked(request)
                && View() == ViewThen(old(View()), DoLogin(name), old(socket.Inbox()))
    {
      if connected || name == "" {
        return true;
      }
      var reply;
      done, reply := Exchange(Packet(CMD_LOGIN, Padded(NAME_LENGTH, name)));
      if done && reply.code == RPL_OK {
        connected := true;
        username := name;
      }
    }

    method HandleLogout() returns (done: bool)
      modifies this, socket
      ensures RequestFor(old(View()), DoLogout).None? ==> View() == old(View()) && unchanged(socket)
      ensures done && RequestFor(old(View()), DoLogout).Some? ==>
                var request := RequestFor(old(View()), DoLogout).value;
                && Asked(request)
                && View() == ViewThen(old(View()), DoLogout, old(socket.Inbox()))
    {
      if !connected {
        return true;
      }
      var reply;
      done, reply := Exchange(Packet(CMD_LOGOUT, ""));
      if done && reply.code == RPL_OK {
        connected := false;
        username := "";
        context := NoContext;
      }
    }

    method HandleUse(c: Context) returns (done: bool)
      modifies this, socket
      ensures RequestFor(old(View()), DoUse(c)).None? ==> View() == old(View()) && unchanged(socket)
      ensures done && RequestFor(old(View()), DoUse(c)).Some? ==>
                var request := RequestFor(old(View()), DoUse(c)).value;
                && Asked(request)
                && View() == ViewThen(old(View()), DoUse(c), old(socket.Inbox()))
    {
      if !ContextOk(c) {
        return true;
      }
      var reply;
      done, reply := Exchange(Packet(CMD_USE, Padded(UUID_LENGTH, c.team) + Padded(UUID_LENGTH, c.channel) + Padded(UUID_LENGTH, c.thread)));
      if done && reply.code == RPL_OK {
        context := c;
      }
    }

    /** Besides the exchange: whether a created object came back with the payload size of the inferred target. */
    method HandleCreate(first: string, second: string) returns (done: bool, created: bool, wellFormed: bool)
      modifies this, socket
      ensures View() == old(View())
      ensures RequestFor(old(View()), DoCreate(first, second)).None? ==> unchanged(socket)
      ensures done && RequestFor(old(View()), DoCreate(first, second)).Some? ==>
                var request := RequestFor(old(View()), DoCreate(first, second)).value;
                var reply := NextReplyOf(old(socket.Inbox()));
                && Asked(request)
                && reply.Some? && (created <==> reply.value.code == RPL_CREATED)
                && (created ==> (wellFormed <==> |reply.value.payload| == CreatedSize(InferCreateTarget(old(context)))))
    {
      done, created, wellFormed := true, false, false;
      if !connected {
        return;
      }
      var target := InferCreateTarget(context);
      var payload := CreatePayload(target, first, second);
      if payload.None? {
        return;
      }
      var reply;
      done, reply := Exchange(Packet(CMD_CREATE, payload.value));
      created := reply.code == RPL_CREATED;
      wellFormed := |reply.payload| == CreatedSize(target);
    }

    /** /subscribe, /unsubscribe, /send and /info: one request, one reply to show. */
    method HandleSingle(command: UserCommand) returns (done: bool)
      requires command.DoSubscribe? || command.DoUnsubscribe? || command.DoSend? || command.DoInfo?
      modifies socket
      ensures RequestFor(View(), command).None? ==> unchanged(socket)
      ensures done && RequestFor(View(), command).Some? ==> Asked(RequestFor(View(), command).value)
    {
      var request := RequestFor(ClientView(connected, username, context), command);
      if request.None? {
        return true;
      }
      var reply;
      done, reply := Exchange(request.value);
    }

    // The five reply loops.

    method ReadList(request: Packet) returns (done: bool)
      requires request.code == CMD_LIST
      modifies socket`pending
      ensures done ==> Consume(request, 0, old(socket.Inbox())) == Some(socket.Inbox())
    {
      ghost var left := Consume(request, 0, socket.Inbox());
      var expectedListCode: nat := 0;
      while true
        invariant WillLeave(request, expectedListCode, left)
        decreases |socket.pending|
      {
        var reply;
        ghost var reaction;
        done, reply, reaction := AwaitReply(request, expectedListCode, left);
        if !done || reply.code == RPL_OK {
          return;
        }
        if reply.code == ERR_UNAUTHORIZED || reply.code == ERR_FORBIDDEN || reply.code == ERR_NOT_FOUND || reply.code == ERR_BAD_REQUEST {
          return;
        }
        if expectedListCode == 0 {
          expectedListCode := reply.code;
        }
        if reply.code != expectedListCode {
          return;
        }
        if reply.code != RPL_TEAMS_LIST && reply.code != RPL_CHANNELS_LIST && reply.code != RPL_THREADS_LIST && reply.code != RPL_REPLIES_LIST {
          return;
        }
      }
    }

    method ReadSubscribed(request: Packet, hasTeamFilter: bool) returns (done: bool)
      requires request.code == CMD_SUBSCRIBED_LIST && (hasTeamFilter <==> request.payload != "")
      modifies socket`pending
      ensures done ==> Consume(request, 0, old(socket.Inbox())) == Some(socket.Inbox())
    {
      ghost var expected: nat := 0;
      ghost var left := Consume(request, expected, socket.Inbox());
      while true
        invariant WillLeave(request, expected, left)
        decreases |socket.pending|
      {
        var reply;
        ghost var reaction;
        done, reply, reaction := AwaitReply(request, expected, left);
        if !done {
          return;
        }
        PlainReactions(request, expected, reply);
        if reply.code == RPL_OK {
          return;
        }
        if reply.code == ERR_UNAUTHORIZED || reply.code == ERR_NOT_FOUND || reply.code == ERR_FORBIDDEN {
          return;
        }
        if !hasTeamFilter && reply.code == RPL_SUBSCRIBED_LIST {
          expected := reaction.expected;
          continue;
        }
        if hasTeamFilter && reply.code == RPL_USERS_LIST {
          expected := reaction.expected;
          continue;
        }
        return;
      }
    }

    method ReadMessages(request: Packet) returns (done: bool)
      requires request.code == CMD_MESSAGES
      modifies socket`pending
      ensures done ==> Consume(request, 0, old(socket.Inbox())) == Some(socket.Inbox())
    {
      ghost var expected: nat := 0;
      ghost var left := Consume(request, expected, socket.Inbox());
      while true
        invariant WillLeave(request, expected, left)
        decreases |socket.pending|
      {
        var reply;
        ghost var reaction;
        done, reply, reaction := AwaitReply(request, expected, left);
        if !done {
          return;
        }
        PlainReactions(request, expected, reply);
        if reply.code == RPL_OK {
          return;
        }
        if reply.code == RPL_MESSAGES_LIST {
          expected := reaction.expected;
          continue;
        }
        return;
      }
    }

    /** An entry of the wrong size ends the loop with an exception, like an error status. */
    method ReadUsers(request: Packet) returns (done: bool, failed: bool)
      requires request.code == CMD_USERS
      modifies socket`pending
      ensures done ==> Consume(request, 0, old(socket.Inbox())) == Some(socket.Inbox())
    {
      ghost var expected: nat := 0;
      ghost var left := Consume(request, expected, socket.Inbox());
      while true
        invariant WillLeave(request, expected, left)
        decreases |socket.pending|
      {
        var reply;
        ghost var reaction;
        done, reply, reaction := AwaitReply(request, expected, left);
        failed := false;
        if !done {
          return;
        }
        PlainReactions(request, expected, reply);
        if reply.code == RPL_OK {
          return;
        }
        if reply.code == RPL_USERS_LIST && |reply.payload| == 73 {
          expected := reaction.expected;
          continue;
        }
        failed := true;
        return;
      }
    }

    /** RPL_OK is not the answer to /user: the loop waits on. */
    method ReadUser(request: Packet) returns (done: bool, failed: bool)
      requires request.code == CMD_USER_INFO
      modifies socket`pending
      ensures done ==> Consume(request, 0, old(socket.Inbox())) == Some(socket.Inbox())
    {
      ghost var expected: nat := 0;
      ghost var left := Consume(request, expected, socket.Inbox());
      while true
        invariant WillLeave(request, expected, left)
        decreases |socket.pending|
      {
        var reply;
        ghost var reaction;
        done, reply, reaction := AwaitReply(request, expected, left);
        failed := true;
        if !done {
          return;
        }
        PlainReactions(request, expected, reply);
        if reply.code == RPL_OK {
          expected := reaction.expected;
          continue;
        }
        failed := reply.code != RPL_USER_INFO || |reply.payload| != 73;
        return;
      }
    }

    /** /list, /subscribed, /messages, /users and /user: one request, its whole answer consumed. */
    method HandleListing(command: UserCommand) returns (done: bool, failed: bool)
      requires command.DoList? || command.DoSubscribed? || command.DoMessages? || command.DoUsers? || command.DoUser?
      modifies socket
      ensures RequestFor(View(), command).None? ==> unchanged(socket)
      ensures done && RequestFor(View(), command).Some? ==> Asked(RequestFor(View(), command).value)
    {
      var request := RequestFor(ClientView(connected, username, context), command);
      failed := false;
      if request.None? {
        return true, failed;
      }
      done := Send(request.value);
      if !done {
        return;
      }
      match command {
        case DoList => done := ReadList(request.value);
        case DoSubscribed(_) => done := ReadSubscribed(request.value, request.value.payload != "");
        case DoMessages(_) => done := ReadMessages(request.value);
        case DoUsers => done, failed := ReadUsers(request.value);
        case DoUser(_) => done, failed := ReadUser(request.value);
      }
    }
  }

  /** The payload a created object is announced with. */
  function CreatedSize(target: CreateTarget): nat {
    match target
    case MakesTeam => 324
    case MakesChannel => 324
    case MakesThread => 626
    case MakesReply => 594
  }
}
