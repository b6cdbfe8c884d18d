/** Every command, whatever bytes it is given, keeps the store and session invariants and leaves only
    valid contexts. */
module CommandInvariant {
  import opened FixedFields
  import opened Models
  import opened Protocol
  import opened Commands
  import opened StoreInvariant
  import opened SessionInvariant

  predicate ContextOk(c: Context) {
    IsContextChain(c) && (c.team == "" || IsUuid(c.team)) && (c.channel == "" || IsUuid(c.channel)) && (c.thread == "" || IsUuid(c.thread))
  }

  ghost predicate CoreOk(core: Core) {
    StoreOk(core) && SessionsOk(core)
  }

  /** Everything a command promises about the state it leaves. */
  ghost predicate Keeps(core: Core, fd: int, out: Outcome) {
    && CoreOk(out.core)
    && out.core.byFd.Keys <= core.byFd.Keys + {fd}
    && Unlisted(out.core.byFd, out.core.byUuid) == Unlisted(core.byFd, core.byUuid) * out.core.byFd.Keys
    && (out.context.Some? ==> ContextOk(out.context.value))
  }

  lemma {:induction false} LoginFrame(core: Core, fd: int, payload: string, o: Oracle)
    ensures var out := Login(core, fd, payload, o);
            out.context.None? && out.core.byFd.Keys <= core.byFd.Keys + {fd}
  {
  }

  lemma {:induction false} LoginCommandKeeps(core: Core, fd: int, payload: string, o: Oracle, listenFd: int)
    requires CoreOk(core) && DescriptorsOk(core.byFd.Keys + {fd}, listenFd) && IsUuid(o.uuid)
    requires |Login(core, fd, payload, o).core.users| > |core.users| ==> FindUser(core.users, o.uuid).None?
    ensures Keeps(core, fd, Login(core, fd, payload, o))
  {
    LoginFrame(core, fd, payload, o);
    LoginKeeps(core, fd, payload, o, listenFd);
  }

  lemma {:induction false} LogoutFrame(core: Core, fd: int, payload: string)
    ensures var out := Logout(core, fd, payload);
            out.context.None? && out.core.byFd.Keys <= core.byFd.Keys
  {
  }

  lemma {:induction false} LogoutCommandKeeps(core: Core, fd: int, payload: string)
    requires CoreOk(core)
    ensures Keeps(core, fd, Logout(core, fd, payload))
  {
    LogoutKeeps(core, fd, payload);
    LogoutUnlists(core, fd, payload);
    LogoutFrame(core, fd, payload);
  }

  lemma {:induction false} ReplyKeeps(core: Core, fd: int, packets: seq<Packet>)
    requires CoreOk(core)
    ensures Keeps(core, fd, Reply(core, fd, packets))
  {
  }

  /** Commands that only read the store. */
  predicate IsQuery(core: Core, fd: int, out: Outcome) {
    out.core == core && out.context.None?
  }

  lemma {:induction false} QueryKeeps(core: Core, fd: int, out: Outcome)
    requires CoreOk(core) && IsQuery(core, fd, out)
    ensures Keeps(core, fd, out)
  {
  }

  lemma {:induction false} ListsAreQueries(core: Core, context: Context, fd: int, payload: string, o: Oracle)
    ensures IsQuery(core, fd, Users(core, fd, payload)) && IsQuery(core, fd, Messages(core, fd, payload, o))
    ensures IsQuery(core, fd, List(core, context, fd, payload)) && IsQuery(core, fd, SubscribedList(core, fd, payload))
  {
  }

  lemma {:induction false} InfosAreQueries(core: Core, context: Context, fd: int, payload: string)
    ensures IsQuery(core, fd, UserInfo(core, fd, payload)) && IsQuery(core, fd, Info(core, context, fd, payload))
  {
  }

  /** Commands that change the teams and nothing else. */
  lemma {:induction false} NewTeamsKeep(core: Core, fd: int, teams: seq<Team>, out: Outcome)
    requires CoreOk(core) && StoreOk(core.(teams := teams)) && out.core == core.(teams := teams) && out.context.None?
    ensures Keeps(core, fd, out)
  {
  }

  lemma {:induction false} UseFrame(core: Core, fd: int, payload: string)
    ensures var out := Use(core, fd, payload);
            out.core == core && (out.context.Some? ==> ContextOk(out.context.value))
  {
  }

  lemma {:induction false} SameCoreKeeps(core: Core, fd: int, out: Outcome)
    requires CoreOk(core) && out.core == core && (out.context.Some? ==> ContextOk(out.context.value))
    ensures Keeps(core, fd, out)
  {
  }

  lemma {:induction false} UseKeeps(core: Core, fd: int, payload: string)
    requires CoreOk(core)
    ensures Keeps(core, fd, Use(core, fd, payload))
  {
    UseFrame(core, fd, payload);
    SameCoreKeeps(core, fd, Use(core, fd, payload));
  }

  /** The logged-in user is a known one. */
  lemma {:induction false} AuthenticatedIsKnown(core: Core, fd: int)
    requires CoreOk(core) && Authenticated(core, fd).Some?
    ensures var me := core.users[Authenticated(core, fd).value];
            me.uuid in KnownUuids(core.users) && IsUuid(me.uuid) && Fits(UUID_LENGTH, me.uuid)
  {
    UuidFits(core.users[Authenticated(core, fd).value].uuid);
  }

  lemma {:induction false} SubscribeKeeps(core: Core, fd: int, payload: string)
    requires CoreOk(core)
    ensures Keeps(core, fd, Subscribe(core, fd, payload))
  {
    if Authenticated(core, fd).Some? && TeamUuidFrom(payload).Some? {
      var me := core.users[Authenticated(core, fd).value];
      AuthenticatedIsKnown(core, fd);
      match FindTeam(core.teams, TeamUuidFrom(payload).value) {
        case None =>
        case Some(i) =>
          assert TeamOk(core.teams[i], KnownUuids(core.users));
          if !core.teams[i].IsUserSubscribed(me.uuid) {
            ResubscribeKeeps(core, i, core.teams[i].subscribers + [me.uuid]);
          }
      }
    }
  }

  lemma {:induction false} UnsubscribeKeeps(core: Core, fd: int, payload: string)
    requires CoreOk(core)
    ensures Keeps(core, fd, Unsubscribe(core, fd, payload))
  {
    if Authenticated(core, fd).Some? && TeamUuidFrom(payload).Some? {
      var me := core.users[Authenticated(core, fd).value];
      match FindTeam(core.teams, TeamUuidFrom(payload).value) {
        case None =>
        case Some(i) =>
          assert TeamOk(core.teams[i], KnownUuids(core.users));
          var rest := Without(core.teams[i].subscribers, me.uuid);
          WithoutRemoves(core.teams[i].subscribers, me.uuid);
          assert forall j :: 0 <= j < |rest| ==> rest[j] in rest;
          assert SubscribersOk(rest, KnownUuids(core.users));
          ResubscribeKeeps(core, i, rest);
      }
    }
  }

  /** Looking receivers up may add an empty entry, which lists nobody. */
  lemma {:induction false} SentKeeps(core: Core, fd: int, m: Message, out: Outcome)
    requires CoreOk(core) && StoreOk(core.(messages := core.messages + [m]))
    requires out.context.None?
    requires out.core == core.(messages := core.messages + [m], byUuid := core.byUuid[m.receiver := ReceiversOf(core, m.receiver)])
    ensures Keeps(core, fd, out)
  {
  }

  lemma {:induction false} SendKeeps(core: Core, fd: int, payload: string, o: Oracle)
    requires CoreOk(core) && IsUuid(o.uuid)
    ensures Keeps(core, fd, Send(core, fd, payload, o))
  {
    match SendRequest(core, fd, payload) {
      case Refused(_) =>
      case Accepted(r) =>
        FoundIsKnown(core.users, r.0);
        KnownAreUuids(core.users, core.byFd[fd]);
        UuidFits(core.byFd[fd]);
        UuidFits(r.0);
        UuidFits(o.uuid);
        var m := SentMessage(core, fd, r.0, r.1, o);
        assert PrivateMessageOk(m, KnownUuids(core.users));
        AddMessageKeeps(core, m);
        SentKeeps(core, fd, m, Send(core, fd, payload, o));
    }
  }

  lemma {:induction false} CreateTeamKeeps(core: Core, fd: int, payload: string, o: Oracle)
    requires CoreOk(core) && Authenticated(core, fd).Some? && IsUuid(o.uuid)
    requires Announces(CreateTeam(core, core.users[Authenticated(core, fd).value], fd, payload, o)) ==> FindTeam(core.teams, o.uuid).None?
    ensures Keeps(core, fd, CreateTeam(core, core.users[Authenticated(core, fd).value], fd, payload, o))
  {
    hide Keeps, StoreOk, SessionsOk;
    var me := core.users[Authenticated(core, fd).value];
    var out := CreateTeam(core, me, fd, payload, o);
    AuthenticatedIsKnown(core, fd);
    if out.core == core && out.context.None? {
      QueryKeeps(core, fd, out);
    } else {
      var f := NamedRequest(payload).value;
      AddTeamKeeps(core, me.uuid, o.uuid, f.0, f.1);
      NewTeamsKeep(core, fd, out.core.teams, out);
    }
  }

  lemma {:induction false} CreateChannelKeeps(core: Core, me: User, context: Context, fd: int, payload: string, o: Oracle)
    requires CoreOk(core) && IsUuid(o.uuid)
    requires Announces(CreateChannel(core, me, context, fd, payload, o)) ==> FindChannel(AllChannels(core.teams), o.uuid).None?
    ensures Keeps(core, fd, CreateChannel(core, me, context, fd, payload, o))
  {
    hide Keeps, StoreOk, SessionsOk;
    var out := CreateChannel(core, me, context, fd, payload, o);
    if out.core == core && out.context.None? {
      QueryKeeps(core, fd, out);
    } else {
      var f := NamedRequest(payload).value;
      AddChannelKeeps(core, FindTeam(core.teams, context.team).value, o.uuid, f.0, f.1);
      NewTeamsKeep(core, fd, out.core.teams, out);
    }
  }

  /** A thread that is new in every respect, added. */
  lemma {:induction false} NewThreadKeeps(core: Core, fd: int, i: nat, j: nat, t: Thread, out: Outcome)
    requires CoreOk(core) && i < |core.teams| && j < |core.teams[i].channels|
    requires ThreadOk(t, KnownUuids(core.users)) && FindThread(AllThreads(AllChannels(core.teams)), t.uuid).None?
    requires forall k :: 0 <= k < |core.teams[i].channels[j].threads| ==> core.teams[i].channels[j].threads[k].title != t.title
    requires out.context.None?
    requires var c := core.teams[i].channels[j];
             out.core == core.(teams := WithChannel(core.teams, i, j, c.(threads := c.threads + [t])))
    ensures Keeps(core, fd, out)
  {
    var c := core.teams[i].channels[j];
    AddThreadKeeps(core, i, j, t);
    NewTeamsKeep(core, fd, WithChannel(core.teams, i, j, c.(threads := c.threads + [t])), out);
  }

  lemma {:induction false} CreateThreadKeeps(core: Core, context: Context, fd: int, payload: string, o: Oracle)
    requires CoreOk(core) && Authenticated(core, fd).Some?
    requires IsUuid(o.uuid)
    requires Announces(CreateThread(core, core.users[Authenticated(core, fd).value], context, fd, payload, o)) ==>
               FindThread(AllThreads(AllChannels(core.teams)), o.uuid).None?
    ensures Keeps(core, fd, CreateThread(core, core.users[Authenticated(core, fd).value], context, fd, payload, o))
  {
    hide Keeps, StoreOk, SessionsOk;
    var me := core.users[Authenticated(core, fd).value];
    var out := CreateThread(core, me, context, fd, payload, o);
    AuthenticatedIsKnown(core, fd);
    UuidFits(o.uuid);
    if out.core == core && out.context.None? {
      QueryKeeps(core, fd, out);
    } else {
      var f := ThreadRequest(payload).value;
      var target := Resolve(core, me.uuid, context.(thread := ""));
      NewThreadKeeps(core, fd, target.i, target.j, MakeThread(o.uuid, me.uuid, o.now, f.0, f.1), out);
    }
  }

  lemma {:induction false} CreateReplyKeeps(core: Core, context: Context, fd: int, payload: string, o: Oracle)
    requires CoreOk(core) && Authenticated(core, fd).Some? && IsUuid(o.uuid)
    ensures Keeps(core, fd, CreateReply(core, core.users[Authenticated(core, fd).value], context, fd, payload, o))
  {
    hide Keeps, StoreOk, SessionsOk;
    var me := core.users[Authenticated(core, fd).value];
    AuthenticatedIsKnown(core, fd);
    UuidFits(o.uuid);
    var out := CreateReply(core, me, context, fd, payload, o);
    if out.core == core && out.context.None? {
      QueryKeeps(core, fd, out);
    } else {
      var target := Resolve(core, me.uuid, context);
      AddReplyKeeps(core, target.i, target.j, target.k, MakeMessage(o.uuid, me.uuid, o.now, ReplyRequest(payload).value, ""));
      NewTeamsKeep(core, fd, out.core.teams, out);
    }
  }

  lemma {:induction false} CreateKeeps(core: Core, context: Context, fd: int, payload: string, o: Oracle)
    requires CoreOk(core) && IsUuid(o.uuid)
    requires Announces(Create(core, context, fd, payload, o)) ==> UnusedFor(core, ServerCreateTarget(context), o.uuid)
    ensures Keeps(core, fd, Create(core, context, fd, payload, o))
  {
    if Authenticated(core, fd).Some? {
      var me := core.users[Authenticated(core, fd).value];
      match ServerCreateTarget(context) {
        case None =>
        case Some(MakesTeam) => CreateTeamKeeps(core, fd, payload, o);
        case Some(MakesChannel) => CreateChannelKeeps(core, me, context, fd, payload, o);
        case Some(MakesThread) => CreateThreadKeeps(core, context, fd, payload, o);
        case Some(MakesReply) => CreateReplyKeeps(core, context, fd, payload, o);
      }
    }
  }

  /** One dispatched packet, of any code and with any payload, keeps every invariant. */
  lemma {:induction false} ExecKeeps(core: Core, context: Context, fd: int, p: Packet, o: Oracle, listenFd: int)
    requires CoreOk(core) && DescriptorsOk(core.byFd.Keys + {fd}, listenFd) && ValidOracle(core, context, fd, p, o)
    ensures Keeps(core, fd, Exec(core, context, fd, p, o))
  {
    if p.code == CMD_USERS || p.code == CMD_LIST || p.code == CMD_SUBSCRIBED_LIST || p.code == CMD_MESSAGES {
      ListsAreQueries(core, context, fd, p.payload, o);
      QueryKeeps(core, fd, Exec(core, context, fd, p, o));
    } else if p.code == CMD_USER_INFO || p.code == CMD_INFO {
      InfosAreQueries(core, context, fd, p.payload);
      QueryKeeps(core, fd, Exec(core, context, fd, p, o));
    } else if p.code == CMD_LOGIN {
      LoginCommandKeeps(core, fd, p.payload, o, listenFd);
    } else if p.code == CMD_LOGOUT {
      LogoutCommandKeeps(core, fd, p.payload);
    } else if p.code == CMD_USE {
      UseKeeps(core, fd, p.payload);
    } else if p.code == CMD_CREATE {
      CreateKeeps(core, context, fd, p.payload, o);
    } else if p.code == CMD_SUBSCRIBE {
      SubscribeKeeps(core, fd, p.payload);
    } else if p.code == CMD_UNSUBSCRIBE {
      UnsubscribeKeeps(core, fd, p.payload);
    } else if p.code == CMD_SEND {
      SendKeeps(core, fd, p.payload, o);
    } else {
      ReplyKeeps(core, fd, [Status(ERR_BAD_REQUEST)]);
    }
  }

  // ---- What a creation leaves alone ----

  /** Only the teams may differ. */
  predicate TeamsOnly(core: Core, out: Outcome) {
    out.core == core.(teams := out.core.teams) && out.context.None?
  }

  lemma {:induction false} NamedCreationsTouchTeams(core: Core, me: User, context: Context, fd: int, payload: string, o: Oracle)
    ensures TeamsOnly(core, CreateTeam(core, me, fd, payload, o))
    ensures TeamsOnly(core, CreateChannel(core, me, context, fd, payload, o))
  {
  }

  lemma {:induction false} ThreadCreationTouchesTeams(core: Core, me: User, context: Context, fd: int, payload: string, o: Oracle)
    ensures TeamsOnly(core, CreateThread(core, me, context, fd, payload, o))
  {
  }

  lemma {:induction false} ReplyCreationTouchesTeams(core: Core, me: User, context: Context, fd: int, payload: string, o: Oracle)
    ensures TeamsOnly(core, CreateReply(core, me, context, fd, payload, o))
  {
  }

  lemma {:induction false} CreateTouchesTeams(core: Core, context: Context, fd: int, payload: string, o: Oracle)
    ensures TeamsOnly(core, Create(core, context, fd, payload, o))
  {
    if Authenticated(core, fd).Some? {
      var me := core.users[Authenticated(core, fd).value];
      match ServerCreateTarget(context) {
        case None =>
        case Some(MakesTeam) => NamedCreationsTouchTeams(core, me, context, fd, payload, o);
        case Some(MakesChannel) => NamedCreationsTouchTeams(core, me, context, fd, payload, o);
        case Some(MakesThread) => ThreadCreationTouchesTeams(core, me, context, fd, payload, o);
        case Some(MakesReply) => ReplyCreationTouchesTeams(core, me, context, fd, payload, o);
      }
    }
  }
}
