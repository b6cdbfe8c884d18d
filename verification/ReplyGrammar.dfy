/** What a requester receives for one request: a listing ended by RPL_OK, or exactly one packet.
    Everybody else only ever receives events. */
module ReplyGrammar {
  import opened FixedFields
  import opened Models
  import opened Protocol
  import opened Commands

  // ---- Replies among the queued packets ----

  function NonEvents(ps: seq<Packet>): (r: seq<Packet>)
    ensures forall i :: 0 <= i < |r| ==> !IsEvent(r[i])
  {
    if ps == [] then []
    else
      var front := NonEvents(ps[..|ps| - 1]);
      if IsEvent(ps[|ps| - 1]) then front else front + [ps[|ps| - 1]]
  }

  function PacketsOf(emits: seq<Emit>): (r: seq<Packet>)
    ensures |r| == |emits| && forall i :: 0 <= i < |emits| ==> r[i] == emits[i].packet
  {
    seq(|emits|, i requires 0 <= i < |emits| => emits[i].packet)
  }

  /** Every packet fits a header, and only the requester gets packets that are not events. */
  predicate WellAddressed(emits: seq<Emit>, fd: int) {
    forall i :: 0 <= i < |emits| ==>
      Sendable(emits[i].packet) && (IsEvent(emits[i].packet) || (emits[i].One? && emits[i].fd == fd))
  }

  lemma {:induction false} NonEventsAppend(a: seq<Packet>, b: seq<Packet>)
    ensures NonEvents(a + b) == NonEvents(a) + NonEvents(b)
  {
    if b == [] {
      assert a + b == a;
    } else {
      NonEventsAppend(a, b[..|b| - 1]);
      assert (a + b)[..|a + b| - 1] == a + b[..|b| - 1];
    }
  }

  lemma {:induction false} AllEvents(ps: seq<Packet>)
    ensures NonEvents(ps) == [] <==> forall i :: 0 <= i < |ps| ==> IsEvent(ps[i])
  {
    if ps != [] {
      AllEvents(ps[..|ps| - 1]);
      assert forall i :: 0 <= i < |ps| - 1 ==> ps[..|ps| - 1][i] == ps[i];
    }
  }

  lemma {:induction false} NoEvents(ps: seq<Packet>)
    requires forall i :: 0 <= i < |ps| ==> !IsEvent(ps[i])
    ensures NonEvents(ps) == ps
  {
    if ps != [] {
      NoEvents(ps[..|ps| - 1]);
    }
  }

  lemma {:induction false} OneReply(ps: seq<Packet>, k: nat)
    requires k < |ps| && forall i :: 0 <= i < |ps| ==> (IsEvent(ps[i]) <==> i != k)
    ensures NonEvents(ps) == [ps[k]]
  {
    AllEvents(ps[..k]);
    AllEvents(ps[k + 1..]);
    NoEvents([ps[k]]);
    NonEventsAppend(ps[..k], [ps[k]]);
    NonEventsAppend(ps[..k] + [ps[k]], ps[k + 1..]);
    assert ps == ps[..k] + [ps[k]] + ps[k + 1..];
  }

  // ---- The grammar ----

  /** N entries of one kind, then RPL_OK. */
  predicate IsListing(replies: seq<Packet>, code: nat, size: nat) {
    && |replies| >= 1 && replies[|replies| - 1] == Status(RPL_OK)
    && forall i :: 0 <= i < |replies| - 1 ==> replies[i].code == code && |replies[i].payload| == size
  }

  predicate IsRefusal(replies: seq<Packet>) {
    |replies| == 1 && replies[0].payload == "" && (replies[0].code == ERR_BAD_REQUEST || replies[0].code == ERR_UNAUTHORIZED || replies[0].code == ERR_NOT_FOUND)
  }

  predicate Answers(request: Packet, replies: seq<Packet>) {
    if request.code == CMD_USERS then IsListing(replies, RPL_USERS_LIST, 73) || IsRefusal(replies)
    else if request.code == CMD_LIST then
      || IsListing(replies, RPL_TEAMS_LIST, 324) || IsListing(replies, RPL_CHANNELS_LIST, 324)
      || IsListing(replies, RPL_THREADS_LIST, 626) || IsListing(replies, RPL_REPLIES_LIST, 594) || IsRefusal(replies)
    else if request.code == CMD_SUBSCRIBED_LIST then
      || (if request.payload == "" then IsListing(replies, RPL_SUBSCRIBED_LIST, 324) else IsListing(replies, RPL_USERS_LIST, 73))
      || IsRefusal(replies)
    else if request.code == CMD_MESSAGES then IsListing(replies, RPL_MESSAGES_LIST, 557) || IsRefusal(replies)
    else if request.code == CMD_USER_INFO then
      || IsRefusal(replies)
      || (|replies| == 1 && replies[0].code == RPL_USER_INFO && |replies[0].payload| == 73)
      || (|replies| == 1 && replies[0].code == ERR_NOT_FOUND && |replies[0].payload| == UUID_LENGTH)
    else |replies| == 1
  }

  /** What one handled request queues, as the requester and the others see it. */
  predicate Speaks(request: Packet, fd: int, emits: seq<Emit>) {
    WellAddressed(emits, fd) && Answers(request, NonEvents(PacketsOf(emits)))
  }

  // ---- The shapes of handlers ----

  lemma {:induction false} ReplySpeaks(fd: int, packets: seq<Packet>)
    requires forall i :: 0 <= i < |packets| ==> Sendable(packets[i]) && !IsEvent(packets[i])
    ensures WellAddressed(ToSelf(fd, packets), fd) && NonEvents(PacketsOf(ToSelf(fd, packets))) == packets
  {
    assert PacketsOf(ToSelf(fd, packets)) == packets;
    NoEvents(packets);
  }

  lemma {:induction false} SingleSpeaks(request: Packet, core: Core, fd: int, p: Packet)
    requires Sendable(p) && !IsEvent(p) && Answers(request, [p])
    ensures Speaks(request, fd, Reply(core, fd, [p]).emits)
  {
    ReplySpeaks(fd, [p]);
  }

  lemma {:induction false} RefusalSpeaks(request: Packet, core: Core, fd: int, status: nat)
    requires status == ERR_BAD_REQUEST || status == ERR_UNAUTHORIZED || status == ERR_NOT_FOUND
    ensures Speaks(request, fd, Refuse(core, fd, status).emits)
  {
    SingleSpeaks(request, core, fd, Status(status));
  }

  lemma {:induction false} ListingSpeaks(request: Packet, core: Core, fd: int, packets: seq<Packet>, code: nat, size: nat)
    requires forall i :: 0 <= i < |packets| ==> packets[i].code == code && |packets[i].payload| == size
    requires RPL_OK < code < EVT_LOGGED_IN && size < 0x1_0000
    requires forall replies :: IsListing(replies, code, size) ==> Answers(request, replies)
    ensures Speaks(request, fd, Reply(core, fd, packets + [Status(RPL_OK)]).emits)
  {
    ReplySpeaks(fd, packets + [Status(RPL_OK)]);
    assert IsListing(packets + [Status(RPL_OK)], code, size);
  }

  /** One reply to the requester among events. */
  lemma {:induction false} ReplyAmongEvents(request: Packet, fd: int, emits: seq<Emit>, k: nat)
    requires k < |emits| && emits[k].One? && emits[k].fd == fd && Sendable(emits[k].packet) && !IsEvent(emits[k].packet)
    requires forall i :: 0 <= i < |emits| && i != k ==> Sendable(emits[i].packet) && IsEvent(emits[i].packet)
    requires Answers(request, [emits[k].packet])
    ensures Speaks(request, fd, emits)
  {
    OneReply(PacketsOf(emits), k);
  }

  // ---- The handlers ----

  lemma {:induction false} LoginSpeaks(core: Core, fd: int, payload: string, o: Oracle)
    ensures Speaks(Packet(CMD_LOGIN, payload), fd, Login(core, fd, payload, o).emits)
  {
    var request, out := Packet(CMD_LOGIN, payload), Login(core, fd, payload, o);
    SingleSpeaks(request, core, fd, Status(ERR_ALREADY_EXIST));
    RefusalSpeaks(request, core, fd, ERR_BAD_REQUEST);
    if |payload| == LOGIN_SIZE && fd !in core.byFd && Extract(payload).Some? && Extract(payload).value != "" {
      ReplyAmongEvents(request, fd, out.emits, 0);
    }
  }

  lemma {:induction false} LogoutSpeaks(core: Core, fd: int, payload: string)
    ensures Speaks(Packet(CMD_LOGOUT, payload), fd, Logout(core, fd, payload).emits)
  {
    var request, out := Packet(CMD_LOGOUT, payload), Logout(core, fd, payload);
    RefusalSpeaks(request, core, fd, ERR_BAD_REQUEST);
    RefusalSpeaks(request, core, fd, ERR_UNAUTHORIZED);
    if |payload| == 0 && fd in core.byFd && FindUser(core.users, core.byFd[fd]).Some? {
      ReplyAmongEvents(request, fd, out.emits, 0);
    }
  }

  lemma {:induction false} UsersSpeaks(core: Core, fd: int, payload: string)
    ensures Speaks(Packet(CMD_USERS, payload), fd, Users(core, fd, payload).emits)
  {
    var request := Packet(CMD_USERS, payload);
    RefusalSpeaks(request, core, fd, ERR_BAD_REQUEST);
    RefusalSpeaks(request, core, fd, ERR_UNAUTHORIZED);
    ListingSpeaks(request, core, fd, UserPackets(core.users), RPL_USERS_LIST, 73);
  }

  lemma {:induction false} UserInfoSpeaks(core: Core, fd: int, payload: string)
    ensures Speaks(Packet(CMD_USER_INFO, payload), fd, UserInfo(core, fd, payload).emits)
  {
    var request := Packet(CMD_USER_INFO, payload);
    RefusalSpeaks(request, core, fd, ERR_BAD_REQUEST);
    RefusalSpeaks(request, core, fd, ERR_UNAUTHORIZED);
    if |payload| == TARGET_SIZE && Extract(payload).Some? {
      var uuid := Extract(payload).value;
      SingleSpeaks(request, core, fd, Packet(ERR_NOT_FOUND, Padded(UUID_LENGTH, uuid)));
      if FindUser(core.users, uuid).Some? {
        SingleSpeaks(request, core, fd, UserPacket(RPL_USER_INFO, core.users[FindUser(core.users, uuid).value]));
      }
    }
  }

  lemma {:induction false} ResolveStatus(core: Core, user: string, c: Context)
    ensures Resolve(core, user, c).Missing? ==>
              var status := Resolve(core, user, c).status;
              status == ERR_BAD_REQUEST || status == ERR_UNAUTHORIZED || status == ERR_NOT_FOUND
  {
  }

  lemma {:induction false} InfoSpeaks(core: Core, context: Context, fd: int, payload: string)
    ensures Speaks(Packet(CMD_INFO, payload), fd, Info(core, context, fd, payload).emits)
  {
    var request := Packet(CMD_INFO, payload);
    RefusalSpeaks(request, core, fd, ERR_BAD_REQUEST);
    RefusalSpeaks(request, core, fd, ERR_UNAUTHORIZED);
    if Authenticated(core, fd).Some? {
      var me := core.users[Authenticated(core, fd).value];
      ResolveStatus(core, me.uuid, context);
      match Resolve(core, me.uuid, context) {
        case Missing(status) => RefusalSpeaks(request, core, fd, status);
        case NoTarget => SingleSpeaks(request, core, fd, UserPacket(RPL_USER_INFO, me));
        case TeamTarget(i) => SingleSpeaks(request, core, fd, Packet(RPL_TEAMS_LIST, TeamPayload(core.teams[i])));
        case ChannelTarget(i, j) => SingleSpeaks(request, core, fd, Packet(RPL_CHANNELS_LIST, ChannelPayload(core.teams[i].channels[j])));
        case ThreadTarget(i, j, k) =>
          SingleSpeaks(request, core, fd, Packet(RPL_THREADS_LIST, ThreadPayload(core.teams[i].channels[j].threads[k])));
      }
    }
  }

  lemma {:induction false} ListSpeaks(core: Core, context: Context, fd: int, payload: string)
    ensures Speaks(Packet(CMD_LIST, payload), fd, List(core, context, fd, payload).emits)
  {
    var request := Packet(CMD_LIST, payload);
    RefusalSpeaks(request, core, fd, ERR_BAD_REQUEST);
    RefusalSpeaks(request, core, fd, ERR_UNAUTHORIZED);
    if Authenticated(core, fd).Some? {
      var me := core.users[Authenticated(core, fd).value];
      ResolveStatus(core, me.uuid, context);
      match Resolve(core, me.uuid, context) {
        case Missing(status) => RefusalSpeaks(request, core, fd, status);
        case NoTarget => ListingSpeaks(request, core, fd, TeamPackets(RPL_TEAMS_LIST, core.teams), RPL_TEAMS_LIST, 324);
        case TeamTarget(i) => ListingSpeaks(request, core, fd, ChannelPackets(core.teams[i].channels), RPL_CHANNELS_LIST, 324);
        case ChannelTarget(i, j) =>
          ListingSpeaks(request, core, fd, ThreadPackets(core.teams[i].channels[j].threads), RPL_THREADS_LIST, 626);
        case ThreadTarget(i, j, k) =>
          ListingSpeaks(request, core, fd, ReplyPackets(core.teams[i].channels[j].threads[k]), RPL_REPLIES_LIST, 594);
      }
    }
  }

  lemma {:induction false} SubscriptionsSpeak(core: Core, fd: int, payload: string)
    ensures Speaks(Packet(CMD_SUBSCRIBE, payload), fd, Subscribe(core, fd, payload).emits)
    ensures Speaks(Packet(CMD_UNSUBSCRIBE, payload), fd, Unsubscribe(core, fd, payload).emits)
  {
    var on, off := Packet(CMD_SUBSCRIBE, payload), Packet(CMD_UNSUBSCRIBE, payload);
    forall p | p in [Status(ERR_UNAUTHORIZED), Status(ERR_BAD_REQUEST), Status(ERR_NOT_FOUND), Status(RPL_OK)]
      ensures Speaks(on, fd, ToSelf(fd, [p])) && Speaks(off, fd, ToSelf(fd, [p]))
    {
      SingleSpeaks(on, core, fd, p);
      SingleSpeaks(off, core, fd, p);
    }
    if Authenticated(core, fd).Some? {
      var me := core.users[Authenticated(core, fd).value];
      SingleSpeaks(on, core, fd, UserPacket(RPL_USERS_LIST, me));
      SingleSpeaks(off, core, fd, UserPacket(RPL_USERS_LIST, me));
    }
  }

  lemma {:induction false} SubscribedListSpeaks(core: Core, fd: int, payload: string)
    ensures Speaks(Packet(CMD_SUBSCRIBED_LIST, payload), fd, SubscribedList(core, fd, payload).emits)
  {
    var request := Packet(CMD_SUBSCRIBED_LIST, payload);
    RefusalSpeaks(request, core, fd, ERR_BAD_REQUEST);
    RefusalSpeaks(request, core, fd, ERR_UNAUTHORIZED);
    RefusalSpeaks(request, core, fd, ERR_NOT_FOUND);
    if Authenticated(core, fd).Some? {
      var me := core.users[Authenticated(core, fd).value];
      if payload == "" {
        ListingSpeaks(request, core, fd, TeamPackets(RPL_SUBSCRIBED_LIST, TeamsFollowedBy(core.teams, me.uuid)), RPL_SUBSCRIBED_LIST, 324);
      } else if TeamUuidFrom(payload).Some? && FindTeam(core.teams, TeamUuidFrom(payload).value).Some? {
        var team := core.teams[FindTeam(core.teams, TeamUuidFrom(payload).value).value];
        ListingSpeaks(request, core, fd, UserPackets(KnownUsers(core.users, team.subscribers)), RPL_USERS_LIST, 73);
      }
    }
  }

  lemma {:induction false} MessagesSpeaks(core: Core, fd: int, payload: string, o: Oracle)
    ensures Speaks(Packet(CMD_MESSAGES, payload), fd, Messages(core, fd, payload, o).emits)
  {
    var request := Packet(CMD_MESSAGES, payload);
    match MessagesRequest(core, fd, payload) {
      case Refused(status) => RefusalSpeaks(request, core, fd, status);
      case Accepted(_) => ListingSpeaks(request, core, fd, MessagePackets(o.sorted), RPL_MESSAGES_LIST, 557);
    }
  }

  lemma {:induction false} SendSpeaks(core: Core, fd: int, payload: string, o: Oracle)
    ensures Speaks(Packet(CMD_SEND, payload), fd, Send(core, fd, payload, o).emits)
  {
    var request := Packet(CMD_SEND, payload);
    match SendRequest(core, fd, payload) {
      case Refused(status) => RefusalSpeaks(request, core, fd, status);
      case Accepted(r) =>
        var emits := Send(core, fd, payload, o).emits;
        ReplyAmongEvents(request, fd, emits, |emits| - 1);
    }
  }

  lemma {:induction false} UseSpeaks(core: Core, fd: int, payload: string)
    ensures Speaks(Packet(CMD_USE, payload), fd, Use(core, fd, payload).emits)
  {
    var request := Packet(CMD_USE, payload);
    RefusalSpeaks(request, core, fd, ERR_BAD_REQUEST);
    RefusalSpeaks(request, core, fd, ERR_UNAUTHORIZED);
    if |payload| == TARGET_SIZE || |payload| == USE_SIZE {
      if fd in core.byFd && UseRequest(payload).Some? {
        ReplyAmongEvents(request, fd, [One(fd, Status(RPL_OK))], 0);
      }
    }
  }

  /** A reply followed by one broadcast. */
  lemma {:induction false} CreatedSpeaks(payload: string, fd: int, reply: string, fds: set<int>, event: Packet)
    requires |reply| < 0x1_0000 && Sendable(event) && IsEvent(event)
    ensures Speaks(Packet(CMD_CREATE, payload), fd, [One(fd, Packet(RPL_CREATED, reply)), Every(fds, event)])
  {
    ReplyAmongEvents(Packet(CMD_CREATE, payload), fd, [One(fd, Packet(RPL_CREATED, reply)), Every(fds, event)], 0);
  }

  lemma {:induction false} CreateRefusalSpeaks(core: Core, fd: int, payload: string)
    ensures var request := Packet(CMD_CREATE, payload);
            && Speaks(request, fd, ToSelf(fd, [Status(ERR_BAD_REQUEST)])) && Speaks(request, fd, ToSelf(fd, [Status(ERR_UNAUTHORIZED)]))
            && Speaks(request, fd, ToSelf(fd, [Status(ERR_NOT_FOUND)])) && Speaks(request, fd, ToSelf(fd, [Status(ERR_ALREADY_EXIST)]))
  {
    var request := Packet(CMD_CREATE, payload);
    RefusalSpeaks(request, core, fd, ERR_BAD_REQUEST);
    RefusalSpeaks(request, core, fd, ERR_UNAUTHORIZED);
    RefusalSpeaks(request, core, fd, ERR_NOT_FOUND);
    SingleSpeaks(request, core, fd, Status(ERR_ALREADY_EXIST));
  }

  lemma {:induction false} CreateNamedSpeaks(core: Core, me: User, context: Context, fd: int, payload: string, o: Oracle)
    ensures Speaks(Packet(CMD_CREATE, payload), fd, CreateTeam(core, me, fd, payload, o).emits)
    ensures Speaks(Packet(CMD_CREATE, payload), fd, CreateChannel(core, me, context, fd, payload, o).emits)
  {
    CreateRefusalSpeaks(core, fd, payload);
    match NamedRequest(payload) {
      case None =>
      case Some(f) =>
        var team := TeamPayload(MakeTeam(o.uuid, f.0, f.1).AddSubscribedUser(me.uuid));
        CreatedSpeaks(payload, fd, team, core.byFd.Keys, Packet(EVT_TEAM_CREATED, team));
        match FindTeam(core.teams, context.team) {
          case None =>
          case Some(i) =>
            var channel := NamedPayload(o.uuid, f.0, f.1);
            CreatedSpeaks(payload, fd, channel, SubscriberFds(core, core.teams[i]), Packet(EVT_CHANNEL_CREATED, channel));
        }
    }
  }

  lemma {:induction false} CreateThreadSpeaks(core: Core, me: User, context: Context, fd: int, payload: string, o: Oracle)
    ensures Speaks(Packet(CMD_CREATE, payload), fd, CreateThread(core, me, context, fd, payload, o).emits)
  {
    CreateRefusalSpeaks(core, fd, payload);
    ResolveStatus(core, me.uuid, context.(thread := ""));
    var out := CreateThread(core, me, context, fd, payload, o);
    if |out.emits| > 1 {
      CreatedSpeaks(payload, fd, out.emits[0].packet.payload, out.emits[1].fds, out.emits[1].packet);
      assert out.emits == [out.emits[0], out.emits[1]];
    }
  }

  lemma {:induction false} CreateReplySpeaks(core: Core, me: User, context: Context, fd: int, payload: string, o: Oracle)
    ensures Speaks(Packet(CMD_CREATE, payload), fd, CreateReply(core, me, context, fd, payload, o).emits)
  {
    CreateRefusalSpeaks(core, fd, payload);
    match ReplyRequest(payload) {
      case None =>
      case Some(body) =>
        var target := Resolve(core, me.uuid, context);
        ResolveStatus(core, me.uuid, context);
        if target.ThreadTarget? {
          var team := core.teams[target.i];
          var thread := team.channels[target.j].threads[target.k].uuid;
          var reply := MakeMessage(o.uuid, me.uuid, o.now, body, "");
          CreatedSpeaks(payload, fd, ReplyPayload(thread, reply), SubscriberFds(core, team), ReplyEvent(team.uuid, thread, reply));
        }
    }
  }

  lemma {:induction false} CreateSpeaks(core: Core, context: Context, fd: int, payload: string, o: Oracle)
    ensures Speaks(Packet(CMD_CREATE, payload), fd, Create(core, context, fd, payload, o).emits)
  {
    CreateRefusalSpeaks(core, fd, payload);
    if Authenticated(core, fd).Some? {
      var me := core.users[Authenticated(core, fd).value];
      match ServerCreateTarget(context) {
        case None =>
        case Some(MakesTeam) => CreateNamedSpeaks(core, me, context, fd, payload, o);
        case Some(MakesChannel) => CreateNamedSpeaks(core, me, context, fd, payload, o);
        case Some(MakesThread) => CreateThreadSpeaks(core, me, context, fd, payload, o);
        case Some(MakesReply) => CreateReplySpeaks(core, me, context, fd, payload, o);
      }
    }
  }

  /** Whatever the request and the state: the requester's replies follow the grammar of its command, and
      every other connection only gets events. */
  lemma {:induction false} ExecSpeaks(core: Core, context: Context, fd: int, p: Packet, o: Oracle)
    ensures Speaks(p, fd, Exec(core, context, fd, p, o).emits)
  {
    if p.code == CMD_LOGIN {
      LoginSpeaks(core, fd, p.payload, o);
    } else if p.code == CMD_USERS {
      UsersSpeaks(core, fd, p.payload);
    } else if p.code == CMD_USER_INFO {
      UserInfoSpeaks(core, fd, p.payload);
    } else if p.code == CMD_INFO {
      InfoSpeaks(core, context, fd, p.payload);
    } else if p.code == CMD_LOGOUT {
      LogoutSpeaks(core, fd, p.payload);
    } else if p.code == CMD_USE {
      UseSpeaks(core, fd, p.payload);
    } else if p.code == CMD_CREATE {
      CreateSpeaks(core, context, fd, p.payload, o);
    } else if p.code == CMD_LIST {
      ListSpeaks(core, context, fd, p.payload);
    } else if p.code == CMD_SUBSCRIBE || p.code == CMD_UNSUBSCRIBE {
      SubscriptionsSpeak(core, fd, p.payload);
    } else if p.code == CMD_SUBSCRIBED_LIST {
      SubscribedListSpeaks(core, fd, p.payload);
    } else if p.code == CMD_MESSAGES {
      MessagesSpeaks(core, fd, p.payload, o);
    } else if p.code == CMD_SEND {
      SendSpeaks(core, fd, p.payload, o);
    } else {
      RefusalSpeaks(p, core, fd, ERR_BAD_REQUEST);
    }
  }

  lemma {:induction false} DisconnectSpeaks(core: Core, fd: int)
    ensures forall i :: 0 <= i < |Disconnect(core, fd).emits| ==>
              Sendable(Disconnect(core, fd).emits[i].packet) && IsEvent(Disconnect(core, fd).emits[i].packet)
  {
  }
}
