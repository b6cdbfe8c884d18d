/** What each server command does: the new store and sessions, the requester's new context if it
    changes, and the packets queued, in order. */
module Commands {
  import opened Wrappers
  import opened FixedFields
  import opened Sequences
  import opened TimeCodec
  import opened Models
  import opened Protocol

  // ---- State ----

  datatype Core = Core(users: seq<User>, teams: seq<Team>, messages: seq<Message>,
                       byFd: map<int, string>, byUuid: map<string, seq<int>>)

  /** The three identifiers a connection has selected, empty when absent. */
  datatype Context = Context(team: string, channel: string, thread: string)

  const NoContext := Context("", "", "")

  /** One queuing operation: to one connection, or to every connection of a session-map iteration,
      whose order is unspecified and which visits each descriptor once. */
  datatype Emit = One(fd: int, packet: Packet) | Every(fds: set<int>, packet: Packet)

  /** What a command gets from outside: a generated uuid, the clock, and the order in which an
      unstable sort leaves the messages. */
  datatype Oracle = Oracle(uuid: string, now: int64, sorted: seq<Message>)

  datatype Outcome = Outcome(core: Core, context: Option<Context>, emits: seq<Emit>)

  function ToSelf(fd: int, packets: seq<Packet>): (r: seq<Emit>)
    ensures |r| == |packets| && forall i :: 0 <= i < |packets| ==> r[i] == One(fd, packets[i])
  {
    seq(|packets|, i requires 0 <= i < |packets| => One(fd, packets[i]))
  }

  function Status(code: nat): Packet { Packet(code, "") }

  function Reply(core: Core, fd: int, packets: seq<Packet>): Outcome {
    Outcome(core, None, ToSelf(fd, packets))
  }

  function Refuse(core: Core, fd: int, code: nat): Outcome {
    Reply(core, fd, [Status(code)])
  }

  // ---- Lookups ----

  function FindUserByName(users: seq<User>, name: string): Option<nat> {
    IndexWhere(users, (u: User) => u.name == name)
  }

  function FindUser(users: seq<User>, uuid: string): Option<nat> {
    IndexWhere(users, (u: User) => u.uuid == uuid)
  }

  function FindTeam(teams: seq<Team>, uuid: string): Option<nat> {
    IndexWhere(teams, (t: Team) => t.uuid == uuid)
  }

  function FindChannel(channels: seq<Channel>, uuid: string): Option<nat> {
    IndexWhere(channels, (c: Channel) => c.uuid == uuid)
  }

  function FindThread(threads: seq<Thread>, uuid: string): Option<nat> {
    IndexWhere(threads, (t: Thread) => t.uuid == uuid)
  }

  /** getAuthenticatedUser: logged in on this descriptor and still in the user list. */
  function Authenticated(core: Core, fd: int): Option<nat> {
    if fd in core.byFd then FindUser(core.users, core.byFd[fd]) else None
  }

  function ReceiversOf(core: Core, uuid: string): seq<int> {
    if uuid in core.byUuid then core.byUuid[uuid] else []
  }

  predicate IsHex(c: char) {
    '0' <= c <= '9' || 'a' <= c <= 'f' || 'A' <= c <= 'F'
  }

  predicate IsUuid(s: string) {
    && |s| == UUID_LENGTH - 1
    && forall i :: 0 <= i < |s| ==> if i == 8 || i == 13 || i == 18 || i == 23 then s[i] == '-' else IsHex(s[i])
  }

  predicate IsContextChain(c: Context) {
    && (c.team == "" ==> c.channel == "" && c.thread == "")
    && (c.channel == "" ==> c.thread == "")
  }

  // ---- Payload layouts ----

  function Timestamp(t: int64): string {
    LittleEndian(8, t as int % 0x1_0000_0000_0000_0000)
  }

  function UserPayload(u: User): (r: string)
    ensures |r| == 73
  {
    Padded(UUID_LENGTH, u.uuid) + Padded(NAME_LENGTH, u.name) + LittleEndian(4, if u.IsLoggedIn() then 1 else 0)
  }

  function NamedPayload(uuid: string, name: string, description: string): (r: string)
    ensures |r| == 324
  {
    Padded(UUID_LENGTH, uuid) + Padded(NAME_LENGTH, name) + Padded(DESCRIPTION_LENGTH, description)
  }

  function TeamPayload(t: Team): string { NamedPayload(t.uuid, t.name, t.description) }

  function ChannelPayload(c: Channel): string { NamedPayload(c.uuid, c.name, c.description) }

  function ThreadPayload(t: Thread): (r: string)
    ensures |r| == 626
  {
    Padded(UUID_LENGTH, t.uuid) + Padded(UUID_LENGTH, t.author) + Timestamp(t.createdAt)
    + Padded(NAME_LENGTH, t.title) + Padded(BODY_LENGTH, t.body)
  }

  function ReplyPayload(thread: string, m: Message): (r: string)
    ensures |r| == 594
  {
    Padded(UUID_LENGTH, thread) + Padded(UUID_LENGTH, m.author) + Timestamp(m.createdAt) + Padded(BODY_LENGTH, m.body)
  }

  function MessagePayload(m: Message): (r: string)
    ensures |r| == 557
  {
    Padded(UUID_LENGTH, m.author) + Timestamp(m.createdAt) + Padded(BODY_LENGTH, m.body)
  }

  function ConnectionEvent(code: nat, u: User): Packet {
    Packet(code, Padded(UUID_LENGTH, u.uuid) + Padded(NAME_LENGTH, u.name))
  }

  function PrivateMessageEvent(m: Message): Packet {
    Packet(EVT_PRIVATE_MSG_RCVD, Padded(UUID_LENGTH, m.author) + Padded(BODY_LENGTH, m.body))
  }

  function ReplyEvent(team: string, thread: string, m: Message): Packet {
    Packet(EVT_REPLY_CREATED, Padded(UUID_LENGTH, team) + Padded(UUID_LENGTH, thread) + Padded(UUID_LENGTH, m.author)
                              + Padded(BODY_LENGTH, m.body))
  }

  function UserPacket(code: nat, u: User): Packet { Packet(code, UserPayload(u)) }

  const TARGET_SIZE := 37
  const LOGIN_SIZE := 32
  const SEND_SIZE := 549
  const USE_SIZE := 111
  const CREATE_REPLY_SIZE := 512

  // ---- /login ----

  function CompleteLogin(core: Core, fd: int, i: nat): Outcome
    requires i < |core.users|
  {
    var u := core.users[i];
    var core' := core.(byFd := core.byFd[fd := u.uuid],
                       byUuid := core.byUuid[u.uuid := ReceiversOf(core, u.uuid) + [fd]]);
    Outcome(core', None, [One(fd, Status(RPL_OK)), Every(core'.byFd.Keys, ConnectionEvent(EVT_LOGGED_IN, u))])
  }

  function Login(core: Core, fd: int, payload: string, o: Oracle): Outcome {
    if |payload| != LOGIN_SIZE then Refuse(core, fd, ERR_BAD_REQUEST)
    else if fd in core.byFd then Refuse(core, fd, ERR_ALREADY_EXIST)
    else if Extract(payload).None? || Extract(payload).value == "" then Refuse(core, fd, ERR_BAD_REQUEST)
    else
      var name := Extract(payload).value;
      match FindUserByName(core.users, name)
      case None => CompleteLogin(core.(users := core.users + [MakeUser(o.uuid, name, true)]), fd, |core.users|)
      case Some(i) => CompleteLogin(core.(users := core.users[i := core.users[i].AddLoggedIn()]), fd, i)
  }

  // ---- /logout and disconnection ----

  function Logout(core: Core, fd: int, payload: string): Outcome {
    if |payload| != 0 then Refuse(core, fd, ERR_BAD_REQUEST)
    else if fd !in core.byFd then Refuse(core, fd, ERR_UNAUTHORIZED)
    else
      var uuid := core.byFd[fd];
      var left := core.(byUuid := core.byUuid[uuid := Without(ReceiversOf(core, uuid), fd)],
                        byFd := core.byFd - {fd});
      match FindUser(core.users, uuid)
      case None => Refuse(left, fd, ERR_UNAUTHORIZED)
      case Some(i) =>
        var u := core.users[i];
        var event := ConnectionEvent(EVT_LOGGED_OUT, u);
        Outcome(left.(users := core.users[i := u.RemoveLoggedIn()]), None,
                [One(fd, Status(RPL_OK)), One(fd, event), Every(left.byFd.Keys, event)])
  }

  /** The whole by-uuid entry goes, even when it lists other sessions of the user. */
  function Disconnect(core: Core, fd: int): Outcome {
    if fd !in core.byFd then Outcome(core, None, [])
    else
      var uuid := core.byFd[fd];
      var left := core.(byUuid := core.byUuid - {uuid}, byFd := core.byFd - {fd});
      match FindUser(core.users, uuid)
      case None => Outcome(left, None, [])
      case Some(i) =>
        var u := core.users[i];
        Outcome(left.(users := core.users[i := u.RemoveLoggedIn()]), None,
                [Every(left.byFd.Keys - {fd}, ConnectionEvent(EVT_LOGGED_OUT, u))])
  }

  // ---- /users, /user, /info ----

  function UserPackets(users: seq<User>): (r: seq<Packet>)
    ensures |r| == |users| && forall i :: 0 <= i < |users| ==> r[i] == UserPacket(RPL_USERS_LIST, users[i])
  {
    seq(|users|, i requires 0 <= i < |users| => UserPacket(RPL_USERS_LIST, users[i]))
  }

  function Users(core: Core, fd: int, payload: string): Outcome {
    if |payload| != 0 then Refuse(core, fd, ERR_BAD_REQUEST)
    else if fd !in core.byFd then Refuse(core, fd, ERR_UNAUTHORIZED)
    else Reply(core, fd, UserPackets(core.users) + [Status(RPL_OK)])
  }

  function UserInfo(core: Core, fd: int, payload: string): Outcome {
    if |payload| != TARGET_SIZE then Refuse(core, fd, ERR_BAD_REQUEST)
    else if fd !in core.byFd then Refuse(core, fd, ERR_UNAUTHORIZED)
    else if Extract(payload).None? || Extract(payload).value == "" then Refuse(core, fd, ERR_BAD_REQUEST)
    else
      match FindUser(core.users, Extract(payload).value)
      case None => Reply(core, fd, [Packet(ERR_NOT_FOUND, Padded(UUID_LENGTH, Extract(payload).value))])
      case Some(i) => Reply(core, fd, [UserPacket(RPL_USER_INFO, core.users[i])])
  }

  /** The object a context designates, or the status that refuses it. */
  datatype Target = NoTarget | TeamTarget(i: nat) | ChannelTarget(i: nat, j: nat) | ThreadTarget(i: nat, j: nat, k: nat)
                  | Missing(status: nat)

  predicate IsTarget(core: Core, target: Target) {
    && (target.TeamTarget? ==> target.i < |core.teams|)
    && (target.ChannelTarget? ==> target.i < |core.teams| && target.j < |core.teams[target.i].channels|)
    && (target.ThreadTarget? ==>
          && target.i < |core.teams| && target.j < |core.teams[target.i].channels|
          && target.k < |core.teams[target.i].channels[target.j].threads|)
  }

  function Resolve(core: Core, user: string, c: Context): (r: Target)
    ensures IsTarget(core, r)
  {
    if !IsContextChain(c) then Missing(ERR_BAD_REQUEST)
    else if c.team == "" then NoTarget
    else
      match FindTeam(core.teams, c.team)
      case None => Missing(ERR_NOT_FOUND)
      case Some(i) =>
        if !core.teams[i].IsUserSubscribed(user) then Missing(ERR_UNAUTHORIZED)
        else if c.channel == "" then TeamTarget(i)
        else
          match FindChannel(core.teams[i].channels, c.channel)
          case None => Missing(ERR_NOT_FOUND)
          case Some(j) =>
            if c.thread == "" then ChannelTarget(i, j)
            else
              match FindThread(core.teams[i].channels[j].threads, c.thread)
              case None => Missing(ERR_NOT_FOUND)
              case Some(k) => ThreadTarget(i, j, k)
  }

  function InfoOf(core: Core, me: User, fd: int, target: Target): Outcome
    requires IsTarget(core, target)
  {
    match target
    case Missing(status) => Refuse(core, fd, status)
    case NoTarget => Reply(core, fd, [UserPacket(RPL_USER_INFO, me)])
    case TeamTarget(i) => Reply(core, fd, [Packet(RPL_TEAMS_LIST, TeamPayload(core.teams[i]))])
    case ChannelTarget(i, j) => Reply(core, fd, [Packet(RPL_CHANNELS_LIST, ChannelPayload(core.teams[i].channels[j]))])
    case ThreadTarget(i, j, k) => Reply(core, fd, [Packet(RPL_THREADS_LIST, ThreadPayload(core.teams[i].channels[j].threads[k]))])
  }

  function Info(core: Core, context: Context, fd: int, payload: string): Outcome {
    if |payload| != 0 then Refuse(core, fd, ERR_BAD_REQUEST)
    else if Authenticated(core, fd).None? then Refuse(core, fd, ERR_UNAUTHORIZED)
    else
      var me := core.users[Authenticated(core, fd).value];
      InfoOf(core, me, fd, Resolve(core, me.uuid, context))
  }

  // ---- /list ----

  function TeamPackets(code: nat, teams: seq<Team>): (r: seq<Packet>)
    ensures |r| == |teams| && forall i :: 0 <= i < |teams| ==> r[i] == Packet(code, TeamPayload(teams[i]))
  {
    seq(|teams|, i requires 0 <= i < |teams| => Packet(code, TeamPayload(teams[i])))
  }

  function ChannelPackets(channels: seq<Channel>): (r: seq<Packet>)
    ensures |r| == |channels| && forall i :: 0 <= i < |channels| ==> r[i] == Packet(RPL_CHANNELS_LIST, ChannelPayload(channels[i]))
  {
    seq(|channels|, i requires 0 <= i < |channels| => Packet(RPL_CHANNELS_LIST, ChannelPayload(channels[i])))
  }

  function ThreadPackets(threads: seq<Thread>): (r: seq<Packet>)
    ensures |r| == |threads| && forall i :: 0 <= i < |threads| ==> r[i] == Packet(RPL_THREADS_LIST, ThreadPayload(threads[i]))
  {
    seq(|threads|, i requires 0 <= i < |threads| => Packet(RPL_THREADS_LIST, ThreadPayload(threads[i])))
  }

  function ReplyPackets(thread: Thread): (r: seq<Packet>)
    ensures |r| == |thread.replies|
    ensures forall i :: 0 <= i < |thread.replies| ==> r[i] == Packet(RPL_REPLIES_LIST, ReplyPayload(thread.uuid, thread.replies[i]))
  {
    seq(|thread.replies|, i requires 0 <= i < |thread.replies| => Packet(RPL_REPLIES_LIST, ReplyPayload(thread.uuid, thread.replies[i])))
  }

  function ListingOf(core: Core, fd: int, target: Target): Outcome
    requires IsTarget(core, target)
  {
    match target
    case Missing(status) => Refuse(core, fd, status)
    case NoTarget => Reply(core, fd, TeamPackets(RPL_TEAMS_LIST, core.teams) + [Status(RPL_OK)])
    case TeamTarget(i) => Reply(core, fd, ChannelPackets(core.teams[i].channels) + [Status(RPL_OK)])
    case ChannelTarget(i, j) => Reply(core, fd, ThreadPackets(core.teams[i].channels[j].threads) + [Status(RPL_OK)])
    case ThreadTarget(i, j, k) => Reply(core, fd, ReplyPackets(core.teams[i].channels[j].threads[k]) + [Status(RPL_OK)])
  }

  function List(core: Core, context: Context, fd: int, payload: string): Outcome {
    if |payload| != 0 then Refuse(core, fd, ERR_BAD_REQUEST)
    else if Authenticated(core, fd).None? then Refuse(core, fd, ERR_UNAUTHORIZED)
    else ListingOf(core, fd, Resolve(core, core.users[Authenticated(core, fd).value].uuid, context))
  }

  // ---- Subscriptions ----

  /** The team uuid of a TeamTarget payload, None when the payload is refused. */
  function TeamUuidFrom(payload: string): Option<string> {
    if |payload| != TARGET_SIZE || Extract(payload).None? || !IsUuid(Extract(payload).value) then None
    else Extract(payload)
  }

  function Subscribe(core: Core, fd: int, payload: string): Outcome {
    if Authenticated(core, fd).None? then Refuse(core, fd, ERR_UNAUTHORIZED)
    else
      var me := core.users[Authenticated(core, fd).value];
      match TeamUuidFrom(payload)
      case None => Refuse(core, fd, ERR_BAD_REQUEST)
      case Some(uuid) =>
        match FindTeam(core.teams, uuid)
        case None => Refuse(core, fd, ERR_NOT_FOUND)
        case Some(i) =>
          if core.teams[i].IsUserSubscribed(me.uuid) then Refuse(core, fd, RPL_OK)
          else Reply(core.(teams := core.teams[i := core.teams[i].AddSubscribedUser(me.uuid)]), fd, [UserPacket(RPL_USERS_LIST, me)])
  }

  function Unsubscribe(core: Core, fd: int, payload: string): Outcome {
    if Authenticated(core, fd).None? then Refuse(core, fd, ERR_UNAUTHORIZED)
    else
      var me := core.users[Authenticated(core, fd).value];
      match TeamUuidFrom(payload)
      case None => Refuse(core, fd, ERR_BAD_REQUEST)
      case Some(uuid) =>
        match FindTeam(core.teams, uuid)
        case None => Refuse(core, fd, ERR_NOT_FOUND)
        case Some(i) =>
          if !core.teams[i].IsUserSubscribed(me.uuid) then Refuse(core, fd, RPL_OK)
          else Reply(core.(teams := core.teams[i := core.teams[i].RemoveSubscribedUser(me.uuid)]), fd, [UserPacket(RPL_USERS_LIST, me)])
  }

  /** The teams a user subscribes to, in order. */
  function TeamsFollowedBy(teams: seq<Team>, user: string): seq<Team> {
    if teams == [] then []
    else
      var front := TeamsFollowedBy(teams[..|teams| - 1], user);
      if teams[|teams| - 1].IsUserSubscribed(user) then front + [teams[|teams| - 1]] else front
  }

  /** The users behind a subscription list; identifiers of no known user are skipped. */
  function KnownUsers(users: seq<User>, uuids: seq<string>): seq<User> {
    if uuids == [] then []
    else
      var front := KnownUsers(users, uuids[..|uuids| - 1]);
      match FindUser(users, uuids[|uuids| - 1])
      case None => front
      case Some(i) => front + [users[i]]
  }

  function SubscribedList(core: Core, fd: int, payload: string): Outcome {
    if Authenticated(core, fd).None? then Refuse(core, fd, ERR_UNAUTHORIZED)
    else
      var me := core.users[Authenticated(core, fd).value];
      if |payload| == 0 then
        Reply(core, fd, TeamPackets(RPL_SUBSCRIBED_LIST, TeamsFollowedBy(core.teams, me.uuid)) + [Status(RPL_OK)])
      else
        match TeamUuidFrom(payload)
        case None => Refuse(core, fd, ERR_BAD_REQUEST)
        case Some(uuid) =>
          match FindTeam(core.teams, uuid)
          case None => Refuse(core, fd, ERR_NOT_FOUND)
          case Some(i) => Reply(core, fd, UserPackets(KnownUsers(core.users, core.teams[i].subscribers)) + [Status(RPL_OK)])
  }

  // ---- Private messages ----

  predicate IsBetween(m: Message, a: string, b: string) {
    (m.author == a && m.receiver == b) || (m.author == b && m.receiver == a)
  }

  function Conversation(messages: seq<Message>, a: string, b: string): seq<Message> {
    if messages == [] then []
    else
      var front := Conversation(messages[..|messages| - 1], a, b);
      if IsBetween(messages[|messages| - 1], a, b) then front + [messages[|messages| - 1]] else front
  }

  /** Non-decreasing times. */
  predicate IsSorted(messages: seq<Message>) {
    forall i, j :: 0 <= i < j < |messages| ==> messages[i].createdAt <= messages[j].createdAt
  }

  function MessagePackets(messages: seq<Message>): (r: seq<Packet>)
    ensures |r| == |messages| && forall i :: 0 <= i < |messages| ==> r[i] == Packet(RPL_MESSAGES_LIST, MessagePayload(messages[i]))
  {
    seq(|messages|, i requires 0 <= i < |messages| => Packet(RPL_MESSAGES_LIST, MessagePayload(messages[i])))
  }

  /** The uuid of the other party of an accepted /messages request. */
  datatype Request<T> = Accepted(value: T) | Refused(status: nat)

  function MessagesRequest(core: Core, fd: int, payload: string): Request<string> {
    if |payload| != TARGET_SIZE then Refused(ERR_BAD_REQUEST)
    else if fd !in core.byFd then Refused(ERR_UNAUTHORIZED)
    else if Extract(payload).None? || !IsUuid(Extract(payload).value) then Refused(ERR_BAD_REQUEST)
    else if FindUser(core.users, Extract(payload).value).None? then Refused(ERR_NOT_FOUND)
    else Accepted(Extract(payload).value)
  }

  function Messages(core: Core, fd: int, payload: string, o: Oracle): Outcome {
    match MessagesRequest(core, fd, payload)
    case Refused(status) => Refuse(core, fd, status)
    case Accepted(target) => Reply(core, fd, MessagePackets(o.sorted) + [Status(RPL_OK)])
  }

  /** The receiver and body of an accepted /send request. */
  function SendRequest(core: Core, fd: int, payload: string): Request<(string, string)> {
    if |payload| != SEND_SIZE then Refused(ERR_BAD_REQUEST)
    else if fd !in core.byFd then Refused(ERR_UNAUTHORIZED)
    else
      var target := Extract(payload[..UUID_LENGTH]);
      var body := Extract(payload[UUID_LENGTH..]);
      if body.None? || target.None? || !IsUuid(target.value) || body.value == "" then Refused(ERR_BAD_REQUEST)
      else if FindUser(core.users, target.value).None? then Refused(ERR_NOT_FOUND)
      else Accepted((target.value, body.value))
  }

  function SentMessage(core: Core, fd: int, target: string, body: string, o: Oracle): Message
    requires fd in core.byFd
  {
    MakeMessage(o.uuid, core.byFd[fd], o.now, body, target)
  }

  function Deliveries(fds: seq<int>, packet: Packet): (r: seq<Emit>)
    ensures |r| == |fds| && forall i :: 0 <= i < |fds| ==> r[i] == One(fds[i], packet)
  {
    seq(|fds|, i requires 0 <= i < |fds| => One(fds[i], packet))
  }

  /** Looking the receiver up creates an empty by-uuid entry when there was none. */
  function Send(core: Core, fd: int, payload: string, o: Oracle): Outcome {
    match SendRequest(core, fd, payload)
    case Refused(status) => Refuse(core, fd, status)
    case Accepted(r) =>
      var m := SentMessage(core, fd, r.0, r.1, o);
      var receivers := ReceiversOf(core, m.receiver);
      Outcome(core.(messages := core.messages + [m], byUuid := core.byUuid[m.receiver := receivers]), None,
              Deliveries(receivers, PrivateMessageEvent(m)) + [One(fd, Status(RPL_OK))])
  }

  // ---- /use ----

  function OptionalUuid(raw: string): Option<string>
    requires |raw| > 0
  {
    if raw[0] == NUL then Some("")
    else if Extract(raw).None? || !IsUuid(Extract(raw).value) then None
    else Extract(raw)
  }

  function UseRequest(payload: string): Option<Context> {
    if |payload| == TARGET_SIZE then
      match OptionalUuid(payload)
      case None => None
      case Some(team) => Some(Context(team, "", ""))
    else if |payload| == USE_SIZE then
      var team := OptionalUuid(payload[..UUID_LENGTH]);
      var channel := OptionalUuid(payload[UUID_LENGTH..2 * UUID_LENGTH]);
      var thread := OptionalUuid(payload[2 * UUID_LENGTH..]);
      if team.None? || channel.None? || thread.None? then None
      else
        var c := Context(team.value, channel.value, thread.value);
        if IsContextChain(c) then Some(c) else None
    else None
  }

  function Use(core: Core, fd: int, payload: string): Outcome {
    if |payload| != TARGET_SIZE && |payload| != USE_SIZE then Refuse(core, fd, ERR_BAD_REQUEST)
    else if fd !in core.byFd then Refuse(core, fd, ERR_UNAUTHORIZED)
    else
      match UseRequest(payload)
      case None => Refuse(core, fd, ERR_BAD_REQUEST)
      case Some(c) => Outcome(core, Some(c), [One(fd, Status(RPL_OK))])
  }

  // ---- /create ----

  /** Two leading NUL-terminated fields of the given sizes. */
  function TwoFields(payload: string, first: nat, second: nat): Option<(string, string)> {
    if |payload| != first + second || Extract(payload[..first]).None? || Extract(payload[first..]).None? then None
    else Some((Extract(payload[..first]).value, Extract(payload[first..]).value))
  }

  function NamedRequest(payload: string): Option<(string, string)> {
    match TwoFields(payload, NAME_LENGTH, DESCRIPTION_LENGTH)
    case None => None
    case Some(f) => if f.0 == "" then None else Some(f)
  }

  function ThreadRequest(payload: string): Option<(string, string)> {
    match TwoFields(payload, NAME_LENGTH, BODY_LENGTH)
    case None => None
    case Some(f) => if f.0 == "" || f.1 == "" then None else Some(f)
  }

  function ReplyRequest(payload: string): Option<string> {
    if |payload| != CREATE_REPLY_SIZE || Extract(payload).None? || Extract(payload).value == "" then None
    else Extract(payload)
  }

  function SubscriberFds(core: Core, team: Team): set<int> {
    set fd | fd in core.byFd && team.IsUserSubscribed(core.byFd[fd])
  }

  function CreateTeam(core: Core, me: User, fd: int, payload: string, o: Oracle): Outcome {
    match NamedRequest(payload)
    case None => Refuse(core, fd, ERR_BAD_REQUEST)
    case Some(f) =>
      if exists i :: 0 <= i < |core.teams| && core.teams[i].name == f.0 then Refuse(core, fd, ERR_ALREADY_EXIST)
      else
        var team := MakeTeam(o.uuid, f.0, f.1).AddSubscribedUser(me.uuid);
        Outcome(core.(teams := core.teams + [team]), None,
                [One(fd, Packet(RPL_CREATED, TeamPayload(team))),
                 Every(core.byFd.Keys, Packet(EVT_TEAM_CREATED, TeamPayload(team)))])
  }

  function CreateChannel(core: Core, me: User, context: Context, fd: int, payload: string, o: Oracle): Outcome {
    match NamedRequest(payload)
    case None => Refuse(core, fd, ERR_BAD_REQUEST)
    case Some(f) =>
      match FindTeam(core.teams, context.team)
      case None => Refuse(core, fd, ERR_NOT_FOUND)
      case Some(i) =>
        var team := core.teams[i];
        if !team.IsUserSubscribed(me.uuid) then Refuse(core, fd, ERR_UNAUTHORIZED)
        else if exists j :: 0 <= j < |team.channels| && team.channels[j].name == f.0 then Refuse(core, fd, ERR_ALREADY_EXIST)
        else
          var payload' := NamedPayload(o.uuid, f.0, f.1);
          var team' := team.(channels := team.channels + [MakeChannel(o.uuid, f.0, f.1)]);
          Outcome(core.(teams := core.teams[i := team']), None,
                  [One(fd, Packet(RPL_CREATED, payload')), Every(SubscriberFds(core, team), Packet(EVT_CHANNEL_CREATED, payload'))])
  }

  function WithChannel(teams: seq<Team>, i: nat, j: nat, channel: Channel): seq<Team>
    requires i < |teams| && j < |teams[i].channels|
  {
    teams[i := teams[i].(channels := teams[i].channels[j := channel])]
  }

  function CreateThread(core: Core, me: User, context: Context, fd: int, payload: string, o: Oracle): Outcome {
    match ThreadRequest(payload)
    case None => Refuse(core, fd, ERR_BAD_REQUEST)
    case Some(f) =>
      match Resolve(core, me.uuid, context.(thread := ""))
      case Missing(status) => Refuse(core, fd, status)
      case ChannelTarget(i, j) =>
        var channel := core.teams[i].channels[j];
        if exists k :: 0 <= k < |channel.threads| && channel.threads[k].title == f.0 then Refuse(core, fd, ERR_ALREADY_EXIST)
        else
          var thread := MakeThread(o.uuid, me.uuid, o.now, f.0, f.1);
          var channel' := channel.(threads := channel.threads + [thread]);
          Outcome(core.(teams := WithChannel(core.teams, i, j, channel')), None,
                  [One(fd, Packet(RPL_CREATED, ThreadPayload(thread))),
                   Every(SubscriberFds(core, core.teams[i]), Packet(EVT_THREAD_CREATED, ThreadPayload(thread)))])
      case _ => Refuse(core, fd, ERR_NOT_FOUND)
  }

  function CreateReply(core: Core, me: User, context: Context, fd: int, payload: string, o: Oracle): Outcome {
    match ReplyRequest(payload)
    case None => Refuse(core, fd, ERR_BAD_REQUEST)
    case Some(body) =>
      match Resolve(core, me.uuid, context)
      case Missing(status) => Refuse(core, fd, status)
      case ThreadTarget(i, j, k) =>
        var channel := core.teams[i].channels[j];
        var thread := channel.threads[k];
        var reply := MakeMessage(o.uuid, me.uuid, o.now, body, "");
        var thread' := thread.(replies := thread.replies + [reply]);
        Outcome(core.(teams := WithChannel(core.teams, i, j, channel.(threads := channel.threads[k := thread']))), None,
                [One(fd, Packet(RPL_CREATED, ReplyPayload(thread.uuid, reply))),
                 Every(SubscriberFds(core, core.teams[i]), ReplyEvent(core.teams[i].uuid, thread.uuid, reply))])
      case _ => Refuse(core, fd, ERR_NOT_FOUND)
  }

  /** What the context asks to be created. */
  datatype CreateTarget = MakesTeam | MakesChannel | MakesThread | MakesReply

  function ServerCreateTarget(c: Context): Option<CreateTarget> {
    if !IsContextChain(c) then None
    else if c.team == "" then Some(MakesTeam)
    else if c.channel == "" then Some(MakesChannel)
    else if c.thread == "" then Some(MakesThread)
    else Some(MakesReply)
  }

  function Create(core: Core, context: Context, fd: int, payload: string, o: Oracle): Outcome {
    if Authenticated(core, fd).None? then Refuse(core, fd, ERR_UNAUTHORIZED)
    else
      var me := core.users[Authenticated(core, fd).value];
      match ServerCreateTarget(context)
      case None => Refuse(core, fd, ERR_BAD_REQUEST)
      case Some(MakesTeam) => CreateTeam(core, me, fd, payload, o)
      case Some(MakesChannel) => CreateChannel(core, me, context, fd, payload, o)
      case Some(MakesThread) => CreateThread(core, me, context, fd, payload, o)
      case Some(MakesReply) => CreateReply(core, me, context, fd, payload, o)
  }

  // ---- Dispatch ----

  function Exec(core: Core, context: Context, fd: int, p: Packet, o: Oracle): Outcome {
    if p.code == CMD_LOGIN then Login(core, fd, p.payload, o)
    else if p.code == CMD_USERS then Users(core, fd, p.payload)
    else if p.code == CMD_USER_INFO then UserInfo(core, fd, p.payload)
    else if p.code == CMD_INFO then Info(core, context, fd, p.payload)
    else if p.code == CMD_LOGOUT then Logout(core, fd, p.payload)
    else if p.code == CMD_USE then Use(core, fd, p.payload)
    else if p.code == CMD_CREATE then Create(core, context, fd, p.payload, o)
    else if p.code == CMD_LIST then List(core, context, fd, p.payload)
    else if p.code == CMD_SUBSCRIBE then Subscribe(core, fd, p.payload)
    else if p.code == CMD_UNSUBSCRIBE then Unsubscribe(core, fd, p.payload)
    else if p.code == CMD_SUBSCRIBED_LIST then SubscribedList(core, fd, p.payload)
    else if p.code == CMD_MESSAGES then Messages(core, fd, p.payload, o)
    else if p.code == CMD_SEND then Send(core, fd, p.payload, o)
    else Refuse(core, fd, ERR_BAD_REQUEST)
  }

  /** Which handler a code selects. */
  lemma {:induction false} ExecCases(core: Core, context: Context, fd: int, payload: string, o: Oracle)
    ensures Exec(core, context, fd, Packet(CMD_LOGIN, payload), o) == Login(core, fd, payload, o)
    ensures Exec(core, context, fd, Packet(CMD_LOGOUT, payload), o) == Logout(core, fd, payload)
    ensures Exec(core, context, fd, Packet(CMD_USE, payload), o) == Use(core, fd, payload)
    ensures Exec(core, context, fd, Packet(CMD_USERS, payload), o) == Users(core, fd, payload)
    ensures Exec(core, context, fd, Packet(CMD_USER_INFO, payload), o) == UserInfo(core, fd, payload)
    ensures Exec(core, context, fd, Packet(CMD_INFO, payload), o) == Info(core, context, fd, payload)
    ensures Exec(core, context, fd, Packet(CMD_LIST, payload), o) == List(core, context, fd, payload)
    ensures Exec(core, context, fd, Packet(CMD_CREATE, payload), o) == Create(core, context, fd, payload, o)
    ensures Exec(core, context, fd, Packet(CMD_SUBSCRIBE, payload), o) == Subscribe(core, fd, payload)
    ensures Exec(core, context, fd, Packet(CMD_UNSUBSCRIBE, payload), o) == Unsubscribe(core, fd, payload)
    ensures Exec(core, context, fd, Packet(CMD_SUBSCRIBED_LIST, payload), o) == SubscribedList(core, fd, payload)
    ensures Exec(core, context, fd, Packet(CMD_MESSAGES, payload), o) == Messages(core, fd, payload, o)
    ensures Exec(core, context, fd, Packet(CMD_SEND, payload), o) == Send(core, fd, payload, o)
  {
    hide Login, Logout, Use, Users, UserInfo, Info, List, Create, Subscribe, Unsubscribe, SubscribedList, Messages, Send;
  }

  /** A creation answers and announces; a refusal only answers. */
  predicate Announces(out: Outcome) {
    |out.emits| > 1
  }

  /** What the outside may supply: a well-formed uuid, one that the retry loop accepts where the command draws it until it
      is unused, and a sorted permutation of the conversation it asks for. */
  ghost predicate ValidOracle(core: Core, context: Context, fd: int, p: Packet, o: Oracle) {
    && IsUuid(o.uuid)
    && (p.code == CMD_LOGIN && |Login(core, fd, p.payload, o).core.users| > |core.users| ==> FindUser(core.users, o.uuid).None?)
    && (p.code == CMD_CREATE && Announces(Create(core, context, fd, p.payload, o)) ==> UnusedFor(core, ServerCreateTarget(context), o.uuid))
    && (p.code == CMD_MESSAGES && MessagesRequest(core, fd, p.payload).Accepted? ==>
          IsSortOf(o.sorted, Conversation(core.messages, core.byFd[fd], MessagesRequest(core, fd, p.payload).value)))
  }

  /** Uuids drawn for this packet, each turned down because another object of the kind has it. */
  ghost predicate TurnedDown(core: Core, context: Context, fd: int, p: Packet, draws: seq<string>) {
    && (p.code == CMD_LOGIN || p.code == CMD_CREATE)
    && forall i :: 0 <= i < |draws| ==> IsUuid(draws[i]) && !ValidOracle(core, context, fd, p, Oracle(draws[i], 0, []))
  }

  /** Reply uuids are drawn once, the others until they are unused among all objects of their kind. */
  predicate UnusedFor(core: Core, target: Option<CreateTarget>, uuid: string) {
    match target
    case Some(MakesTeam) => FindTeam(core.teams, uuid).None?
    case Some(MakesChannel) => FindChannel(AllChannels(core.teams), uuid).None?
    case Some(MakesThread) => FindThread(AllThreads(AllChannels(core.teams)), uuid).None?
    case _ => true
  }

  ghost predicate IsSortOf(sorted: seq<Message>, messages: seq<Message>) {
    IsSorted(sorted) && multiset(sorted) == multiset(messages)
  }
}
