/** What a request does, from the bytes of its payload: the new store and sessions in full, the replies as the client reads
    them, and who else is told. Logging in and out, contexts, subscriptions and private messages. */
module Effects {
  import opened Wrappers
  import opened FixedFields
  import opened Models
  import opened Protocol
  import opened Commands
  import opened ServerState
  import opened ReplyGrammar
  import opened StoreInvariant
  import opened SessionInvariant
  import opened CommandInvariant
  import opened Broadcast
  import opened Traffic
  import opened Payloads

  // ---- A request and what comes of it ----

  /** A wire field that holds this text. */
  predicate Holds(field: seq<char>, text: string) {
    NUL in field && CString(field) == text
  }

  function CoreAfter(core: Core, context: Context, fd: int, p: Packet, o: Oracle): Core {
    Exec(core, context, fd, p, o).core
  }

  /** What the requester is answered. */
  function RepliesTo(core: Core, context: Context, fd: int, p: Packet, o: Oracle): seq<Packet> {
    NonEvents(PacketsFor(Exec(core, context, fd, p, o).emits, fd))
  }

  /** What connection f is told of it. */
  function EventsTo(core: Core, context: Context, fd: int, p: Packet, o: Oracle, f: int): seq<Packet> {
    Events(PacketsFor(Exec(core, context, fd, p, o).emits, f))
  }

  /** The requester is answered this status, and that is all that happens. */
  ghost predicate TurnsDown(core: Core, context: Context, fd: int, p: Packet, o: Oracle, status: nat) {
    && CoreAfter(core, context, fd, p, o) == core && Exec(core, context, fd, p, o).context.None?
    && RepliesTo(core, context, fd, p, o) == [Status(status)]
    && forall f :: EventsTo(core, context, fd, p, o, f) == []
  }

  /** A code no command has is refused. */
  lemma {:induction false} UnknownCommand(core: Core, context: Context, fd: int, p: Packet, o: Oracle)
    requires p.code !in {CMD_LOGIN, CMD_LOGOUT, CMD_USE, CMD_USERS, CMD_USER_INFO, CMD_INFO, CMD_LIST, CMD_CREATE, CMD_SUBSCRIBE, CMD_UNSUBSCRIBE,
                         CMD_SUBSCRIBED_LIST, CMD_MESSAGES, CMD_SEND}
    ensures TurnsDown(core, context, fd, p, o, ERR_BAD_REQUEST)
  {
    hide TurnsDown;
    assert Exec(core, context, fd, p, o) == Refuse(core, fd, ERR_BAD_REQUEST);
    TurnedAway(core, context, fd, p, o, ERR_BAD_REQUEST);
  }

  /** One reply at place k, events around it. */
  lemma {:induction false} OnlyReply(emits: seq<Emit>, fd: int, k: nat, reply: Packet)
    requires k < |emits| && emits[k] == One(fd, reply) && Sendable(reply) && !IsEvent(reply)
    requires forall i :: 0 <= i < |emits| && i != k ==> Sendable(emits[i].packet) && IsEvent(emits[i].packet)
    ensures NonEvents(PacketsFor(emits, fd)) == [reply]
  {
    RepliesGoToRequester(emits, fd, fd);
    OneReply(PacketsOf(emits), k);
  }

  /** Packets to the requester alone. */
  lemma {:induction false} OnlyReplies(fd: int, packets: seq<Packet>)
    requires forall i :: 0 <= i < |packets| ==> !IsEvent(packets[i])
    ensures NonEvents(PacketsFor(ToSelf(fd, packets), fd)) == packets && Silent(ToSelf(fd, packets))
  {
    SelfPackets(fd, packets);
    NoEvents(packets);
    NoEventIsSilent(ToSelf(fd, packets));
  }

  lemma {:induction false} Answered(core: Core, context: Context, fd: int, p: Packet, o: Oracle, packets: seq<Packet>)
    requires Exec(core, context, fd, p, o).emits == ToSelf(fd, packets)
    requires forall i :: 0 <= i < |packets| ==> !IsEvent(packets[i])
    ensures RepliesTo(core, context, fd, p, o) == packets && forall f :: EventsTo(core, context, fd, p, o, f) == []
  {
    hide Exec;
    OnlyReplies(fd, packets);
  }

  lemma {:induction false} TurnedAway(core: Core, context: Context, fd: int, p: Packet, o: Oracle, status: nat)
    requires Exec(core, context, fd, p, o) == Refuse(core, fd, status) && status < EVT_LOGGED_IN
    ensures TurnsDown(core, context, fd, p, o, status)
  {
    hide Exec;
    Answered(core, context, fd, p, o, [Status(status)]);
  }

  /** A reply, then one event for everybody in the audience. */
  lemma {:induction false} AnsweredAndTold(core: Core, context: Context, fd: int, p: Packet, o: Oracle, reply: Packet, fds: set<int>, event: Packet)
    requires Exec(core, context, fd, p, o).emits == [One(fd, reply), Every(fds, event)]
    requires Sendable(reply) && !IsEvent(reply) && Sendable(event) && IsEvent(event)
    ensures RepliesTo(core, context, fd, p, o) == [reply]
    ensures forall f :: EventsTo(core, context, fd, p, o, f) == if f in fds then [event] else []
  {
    hide Exec;
    var emits := Exec(core, context, fd, p, o).emits;
    OnlyReply(emits, fd, 0, reply);
    ReplyThenBroadcast([One(fd, reply)], fds, event);
    assert emits == [One(fd, reply)] + [Every(fds, event)];
  }

  /** The event that names a user who came or went. */
  predicate NamesUser(e: Packet, code: nat, u: User) {
    e.code == code && |e.payload| == 69 && Field(e.payload, 0, UUID_LENGTH) == u.uuid && Field(e.payload, 37, NAME_LENGTH) == u.name
  }

  // ---- Lookups: identifiers and names are unique ----

  lemma {:induction false} UserFound(users: seq<User>, i: nat)
    requires UsersOk(users) && i < |users|
    ensures FindUser(users, users[i].uuid) == Some(i) && FindUserByName(users, users[i].name) == Some(i)
  {
    KnownIsFound(users, users[i].uuid);
  }

  lemma {:induction false} MeFound(core: Core, fd: int, i: nat)
    requires CoreOk(core) && fd in core.byFd && i < |core.users| && core.users[i].uuid == core.byFd[fd]
    ensures Authenticated(core, fd) == Some(i)
  {
    UserFound(core.users, i);
  }

  lemma {:induction false} TeamFound(core: Core, i: nat)
    requires CoreOk(core) && i < |core.teams|
    ensures FindTeam(core.teams, core.teams[i].uuid) == Some(i) && TeamOk(core.teams[i], KnownUuids(core.users))
  {
  }

  // ---- /login ----

  /** Who logs in with a name that some user has is that user: its counter alone goes up, nobody is added, and nobody else's
      session moves. Everybody logged in is told who it is. */
  lemma {:induction false} LoginKnownName(core: Core, context: Context, fd: int, payload: string, o: Oracle, i: nat, listenFd: int)
    requires CoreOk(core) && fd !in core.byFd && DescriptorsOk(core.byFd.Keys + {fd}, listenFd)
    requires |payload| == LOGIN_SIZE && i < |core.users| && Holds(payload, core.users[i].name)
    ensures var p, u := Packet(CMD_LOGIN, payload), core.users[i];
            && CoreAfter(core, context, fd, p, o)
            == core.(users := core.users[i := u.(logins := u.logins + 1)], byFd := core.byFd[fd := u.uuid],
                     byUuid := core.byUuid[u.uuid := (if u.uuid in core.byUuid then core.byUuid[u.uuid] else []) + [fd]])
            && RepliesTo(core, context, fd, p, o) == [Status(RPL_OK)]
            && forall f :: if f in core.byFd || f == fd
                           then |EventsTo(core, context, fd, p, o, f)| == 1 && NamesUser(EventsTo(core, context, fd, p, o, f)[0], EVT_LOGGED_IN, u)
                           else EventsTo(core, context, fd, p, o, f) == []
  {
    hide Exec;
    var p, u := Packet(CMD_LOGIN, payload), core.users[i];
    ExecCases(core, context, fd, payload, o);
    UserFound(core.users, i);
    OneMoreLogin(core, fd, i, listenFd);
    LoginTold(core, context, fd, payload, o, core.users[i := u.AddLoggedIn()], i);
  }

  /** Who logs in with a new name becomes a new user. */
  lemma {:induction false} LoginNewName(core: Core, context: Context, fd: int, payload: string, o: Oracle)
    requires CoreOk(core) && fd !in core.byFd && IsUuid(o.uuid)
    requires |payload| == LOGIN_SIZE && NUL in payload && CString(payload) != ""
    requires forall i :: 0 <= i < |core.users| ==> core.users[i].name != CString(payload) && core.users[i].uuid != o.uuid
    ensures var p, u := Packet(CMD_LOGIN, payload), User(o.uuid, CString(payload), 1);
            && CoreAfter(core, context, fd, p, o)
            == core.(users := core.users + [u], byFd := core.byFd[fd := u.uuid],
                     byUuid := core.byUuid[u.uuid := (if u.uuid in core.byUuid then core.byUuid[u.uuid] else []) + [fd]])
            && RepliesTo(core, context, fd, p, o) == [Status(RPL_OK)]
            && forall f :: if f in core.byFd || f == fd
                           then |EventsTo(core, context, fd, p, o, f)| == 1 && NamesUser(EventsTo(core, context, fd, p, o, f)[0], EVT_LOGGED_IN, u)
                           else EventsTo(core, context, fd, p, o, f) == []
  {
    hide Exec;
    ExecCases(core, context, fd, payload, o);
    UuidFits(o.uuid);
    LoginTold(core, context, fd, payload, o, core.users + [User(o.uuid, CString(payload), 1)], |core.users|);
  }

  lemma {:induction false} LoginTold(core: Core, context: Context, fd: int, payload: string, o: Oracle, users: seq<User>, i: nat)
    requires i < |users| && UserFits(users[i])
    requires Exec(core, context, fd, Packet(CMD_LOGIN, payload), o) == CompleteLogin(core.(users := users), fd, i)
    ensures var p := Packet(CMD_LOGIN, payload);
            && RepliesTo(core, context, fd, p, o) == [Status(RPL_OK)]
            && forall f :: if f in core.byFd || f == fd
                           then |EventsTo(core, context, fd, p, o, f)| == 1 && NamesUser(EventsTo(core, context, fd, p, o, f)[0], EVT_LOGGED_IN, users[i])
                           else EventsTo(core, context, fd, p, o, f) == []
  {
    hide Exec;
    var event := ConnectionEvent(EVT_LOGGED_IN, users[i]);
    assert core.byFd[fd := users[i].uuid].Keys == core.byFd.Keys + {fd};
    ConnectionEventIsShown(EVT_LOGGED_IN, users[i]);
    AnsweredAndTold(core, context, fd, Packet(CMD_LOGIN, payload), o, Status(RPL_OK), core.byFd.Keys + {fd}, event);
  }

  lemma {:induction false} LoginRefused(core: Core, context: Context, fd: int, payload: string, o: Oracle)
    ensures var p := Packet(CMD_LOGIN, payload);
            && (|payload| != LOGIN_SIZE ==> TurnsDown(core, context, fd, p, o, ERR_BAD_REQUEST))
            && (|payload| == LOGIN_SIZE && fd in core.byFd ==> TurnsDown(core, context, fd, p, o, ERR_ALREADY_EXIST))
            && (|payload| == LOGIN_SIZE && fd !in core.byFd && (NUL !in payload || CString(payload) == "") ==>
                  TurnsDown(core, context, fd, p, o, ERR_BAD_REQUEST))
  {
    hide Exec, TurnsDown;
    ExecCases(core, context, fd, payload, o);
    var out := Login(core, fd, payload, o);
    if |payload| != LOGIN_SIZE || fd in core.byFd || NUL !in payload || CString(payload) == "" {
      TurnedAway(core, context, fd, Packet(CMD_LOGIN, payload), o, out.emits[0].packet.code);
    }
  }

  // ---- /logout and disconnection ----

  /** The session ends: the user's counter goes down by one, the descriptor leaves both maps, nothing else moves. */
  lemma {:induction false} LogoutEnds(core: Core, context: Context, fd: int, o: Oracle, i: nat)
    requires CoreOk(core) && fd in core.byFd && i < |core.users| && core.users[i].uuid == core.byFd[fd]
    ensures var p, u := Packet(CMD_LOGOUT, ""), core.users[i];
            && CoreAfter(core, context, fd, p, o)
            == core.(users := core.users[i := u.(logins := u.logins - 1)], byFd := core.byFd - {fd},
                     byUuid := core.byUuid[u.uuid := Without(if u.uuid in core.byUuid then core.byUuid[u.uuid] else [], fd)])
            && RepliesTo(core, context, fd, p, o) == [Status(RPL_OK)]
            && forall f :: if f in core.byFd
                           then |EventsTo(core, context, fd, p, o, f)| == 1 && NamesUser(EventsTo(core, context, fd, p, o, f)[0], EVT_LOGGED_OUT, u)
                           else EventsTo(core, context, fd, p, o, f) == []
  {
    hide Exec;
    var p, u := Packet(CMD_LOGOUT, ""), core.users[i];
    ExecCases(core, context, fd, "", o);
    UserFound(core.users, i);
    OneSessionLess(core, fd, i);
    ConnectionEventIsShown(EVT_LOGGED_OUT, u);
    LogoutTold(core, context, fd, p, o, ConnectionEvent(EVT_LOGGED_OUT, u));
  }

  lemma {:induction false} LogoutTold(core: Core, context: Context, fd: int, p: Packet, o: Oracle, event: Packet)
    requires fd in core.byFd && IsEvent(event) && Sendable(event)
    requires Exec(core, context, fd, p, o).emits == [One(fd, Status(RPL_OK)), One(fd, event), Every((core.byFd - {fd}).Keys, event)]
    ensures RepliesTo(core, context, fd, p, o) == [Status(RPL_OK)]
    ensures forall f :: EventsTo(core, context, fd, p, o, f) == if f in core.byFd then [event] else []
  {
    hide Exec;
    LoggedOutFanOut(fd, (core.byFd - {fd}).Keys, event);
    assert (core.byFd - {fd}).Keys + {fd} == core.byFd.Keys;
    OnlyReply(Exec(core, context, fd, p, o).emits, fd, 0, Status(RPL_OK));
  }

  lemma {:induction false} LogoutRefused(core: Core, context: Context, fd: int, payload: string, o: Oracle)
    ensures var p := Packet(CMD_LOGOUT, payload);
            && (payload != "" ==> TurnsDown(core, context, fd, p, o, ERR_BAD_REQUEST))
            && (payload == "" && fd !in core.byFd ==> TurnsDown(core, context, fd, p, o, ERR_UNAUTHORIZED))
  {
    hide Exec, TurnsDown;
    ExecCases(core, context, fd, payload, o);
    if payload != "" || fd !in core.byFd {
      TurnedAway(core, context, fd, Packet(CMD_LOGOUT, payload), o, Logout(core, fd, payload).emits[0].packet.code);
    }
  }

  /** A disconnection ends the session too, but takes the user's whole by-uuid entry with it. */
  lemma {:induction false} DisconnectEnds(core: Core, fd: int, i: nat)
    requires CoreOk(core) && fd in core.byFd && i < |core.users| && core.users[i].uuid == core.byFd[fd]
    ensures var u := core.users[i];
            && Disconnect(core, fd).core
            == core.(users := core.users[i := u.(logins := u.logins - 1)], byFd := core.byFd - {fd}, byUuid := core.byUuid - {u.uuid})
  {
    UserFound(core.users, i);
    OneSessionLess(core, fd, i);
  }

  // ---- /use ----

  lemma {:induction false} HeldIdentifier(field: string, id: string)
    requires Holds(field, id) && (id == "" || IsUuid(id))
    ensures OptionalUuid(field) == Some(id)
  {
  }

  /** The three fields become the connection's context, and nothing else changes. */
  lemma {:induction false} UseSelects(core: Core, context: Context, fd: int, payload: string, o: Oracle, c: Context)
    requires fd in core.byFd && ContextOk(c) && |payload| == USE_SIZE
    requires Holds(payload[..UUID_LENGTH], c.team) && Holds(payload[UUID_LENGTH..2 * UUID_LENGTH], c.channel)
    requires Holds(payload[2 * UUID_LENGTH..], c.thread)
    ensures var p := Packet(CMD_USE, payload);
            && CoreAfter(core, context, fd, p, o) == core && Exec(core, context, fd, p, o).context == Some(c)
            && RepliesTo(core, context, fd, p, o) == [Status(RPL_OK)] && forall f :: EventsTo(core, context, fd, p, o, f) == []
  {
    hide Exec, OptionalUuid, IsUuid, CString;
    ExecCases(core, context, fd, payload, o);
    HeldIdentifier(payload[..UUID_LENGTH], c.team);
    HeldIdentifier(payload[UUID_LENGTH..2 * UUID_LENGTH], c.channel);
    HeldIdentifier(payload[2 * UUID_LENGTH..], c.thread);
    assert ToSelf(fd, [Status(RPL_OK)]) == [One(fd, Status(RPL_OK))];
    Answered(core, context, fd, Packet(CMD_USE, payload), o, [Status(RPL_OK)]);
  }

  /** A field that holds neither nothing nor a uuid. */
  predicate Malformed(field: seq<char>) {
    field == "" || (field[0] != NUL && (NUL !in field || !IsUuid(CString(field))))
  }

  lemma {:induction false} UseRefused(core: Core, context: Context, fd: int, payload: string, o: Oracle)
    ensures var p := Packet(CMD_USE, payload);
            && (|payload| != TARGET_SIZE && |payload| != USE_SIZE ==> TurnsDown(core, context, fd, p, o, ERR_BAD_REQUEST))
            && (|payload| == USE_SIZE || |payload| == TARGET_SIZE ==>
                  && (fd !in core.byFd ==> TurnsDown(core, context, fd, p, o, ERR_UNAUTHORIZED))
                  && (fd in core.byFd && Malformed(payload[..UUID_LENGTH]) ==> TurnsDown(core, context, fd, p, o, ERR_BAD_REQUEST)))
            && (|payload| == USE_SIZE && fd in core.byFd
                && (|| Malformed(payload[UUID_LENGTH..2 * UUID_LENGTH]) || Malformed(payload[2 * UUID_LENGTH..])
                    || !IsContextChain(Context(CString(payload[..UUID_LENGTH]), CString(payload[UUID_LENGTH..2 * UUID_LENGTH]),
                                               CString(payload[2 * UUID_LENGTH..]))) ) ==>
                  TurnsDown(core, context, fd, p, o, ERR_BAD_REQUEST))
  {
    hide Exec, TurnsDown;
    ExecCases(core, context, fd, payload, o);
    var out := Use(core, fd, payload);
    assert |payload| == TARGET_SIZE ==> payload[..UUID_LENGTH] == payload;
    if out.context.None? {
      TurnedAway(core, context, fd, Packet(CMD_USE, payload), o, out.emits[0].packet.code);
    }
  }
}
