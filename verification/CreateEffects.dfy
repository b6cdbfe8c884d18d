/** What the four creations do to the store, from the bytes of the payload and the connection's context. */
module CreateEffects {
  import opened Wrappers
  import opened FixedFields
  import opened Models
  import opened Protocol
  import opened Commands
  import opened StoreInvariant
  import opened SessionInvariant
  import opened CommandInvariant
  import opened Payloads
  import opened Effects
  import opened Targets

  lemma {:induction false} MeFits(core: Core, fd: int)
    requires CoreOk(core) && fd in core.byFd
    ensures Authenticated(core, fd).Some? && Authenticated(core, fd).value < |core.users|
    ensures var me := core.users[Authenticated(core, fd).value]; me.uuid == core.byFd[fd] && UserFits(me)
  {
    KnownIsFound(core.users, core.byFd[fd]);
  }

  lemma {:induction false} NobodyHere(core: Core, fd: int)
    requires fd !in core.byFd
    ensures Authenticated(core, fd).None?
  {
  }

  // ---- Teams and channels ----

  /** The payload names a team or a channel. */
  predicate HoldsNamed(payload: string, name: string, description: string) {
    && |payload| == NAME_LENGTH + DESCRIPTION_LENGTH && name != ""
    && Holds(payload[..NAME_LENGTH], name) && Holds(payload[NAME_LENGTH..], description)
  }

  /** The creator is answered with this packet, and the audience is told the same under the event's code. */
  ghost predicate Confirmed(core: Core, context: Context, fd: int, p: Packet, o: Oracle, created: string, code: nat, fds: set<int>) {
    && RepliesTo(core, context, fd, p, o) == [Packet(RPL_CREATED, created)]
    && Exec(core, context, fd, p, o).context.None?
    && forall f :: EventsTo(core, context, fd, p, o, f) == if f in fds then [Packet(code, created)] else []
  }

  /** With no context: one more team, named and described as asked, its creator its only subscriber. */
  lemma {:induction false} TeamIsCreated(core: Core, fd: int, payload: string, o: Oracle, name: string, description: string)
    requires CoreOk(core) && fd in core.byFd && IsUuid(o.uuid) && HoldsNamed(payload, name, description)
    requires forall i :: 0 <= i < |core.teams| ==> core.teams[i].name != name
    ensures var p := Packet(CMD_CREATE, payload);
            && CoreAfter(core, NoContext, fd, p, o)
            == core.(teams := core.teams + [Team(o.uuid, name, description, [core.byFd[fd]], [])])
            && var replies := RepliesTo(core, NoContext, fd, p, o);
            && |replies| == 1 && |replies[0].payload| == 324 && ReadNamed(replies[0].payload) == (o.uuid, name, description)
            && Confirmed(core, NoContext, fd, p, o, replies[0].payload, EVT_TEAM_CREATED, core.byFd.Keys)
  {
    hide Exec, StoreOk, IsUuid, CString;
    ExecCases(core, NoContext, fd, payload, o);
    MeFits(core, fd);
    UuidFits(o.uuid);
    var payload' := NamedPayload(o.uuid, name, description);
    NamedIsShown(o.uuid, name, description);
    assert NamedRequest(payload) == Some((name, description));
    assert MakeTeam(o.uuid, name, description).AddSubscribedUser(core.byFd[fd]) == Team(o.uuid, name, description, [] + [core.byFd[fd]], []);
    assert [] + [core.byFd[fd]] == [core.byFd[fd]];
    AnsweredAndTold(core, NoContext, fd, Packet(CMD_CREATE, payload), o, Packet(RPL_CREATED, payload'), core.byFd.Keys,
                    Packet(EVT_TEAM_CREATED, payload'));
  }

  /** In a team: one more channel in that team, named and described as asked. */
  lemma {:induction false} ChannelIsCreated(core: Core, context: Context, fd: int, payload: string, o: Oracle, name: string, description: string, i: nat)
    requires CoreOk(core) && fd in core.byFd && IsUuid(o.uuid) && HoldsNamed(payload, name, description)
    requires InTeam(core, core.byFd[fd], context, i) && context.channel == "" && context.thread == ""
    requires forall j :: 0 <= j < |core.teams[i].channels| ==> core.teams[i].channels[j].name != name
    ensures var p, t := Packet(CMD_CREATE, payload), core.teams[i];
            && CoreAfter(core, context, fd, p, o)
            == core.(teams := core.teams[i := t.(channels := t.channels + [Channel(o.uuid, name, description, [])])])
            && var replies := RepliesTo(core, context, fd, p, o);
            && |replies| == 1 && |replies[0].payload| == 324 && ReadNamed(replies[0].payload) == (o.uuid, name, description)
            && Confirmed(core, context, fd, p, o, replies[0].payload, EVT_CHANNEL_CREATED, SubscriberFds(core, t))
  {
    hide Exec, StoreOk, IsUuid, CString;
    ExecCases(core, context, fd, payload, o);
    MeFits(core, fd);
    UuidFits(o.uuid);
    TeamFound(core, i);
    TeamNamed(core, i);
    var payload' := NamedPayload(o.uuid, name, description);
    NamedIsShown(o.uuid, name, description);
    assert NamedRequest(payload) == Some((name, description));
    AnsweredAndTold(core, context, fd, Packet(CMD_CREATE, payload), o, Packet(RPL_CREATED, payload'), SubscriberFds(core, core.teams[i]),
                    Packet(EVT_CHANNEL_CREATED, payload'));
  }

  // ---- Threads ----

  predicate HoldsThread(payload: string, title: string, body: string) {
    && |payload| == NAME_LENGTH + BODY_LENGTH && title != "" && body != ""
    && Holds(payload[..NAME_LENGTH], title) && Holds(payload[NAME_LENGTH..], body)
  }

  /** In a channel: one more thread in that channel, by the requester, at the time, titled and worded as asked. */
  lemma {:induction false} ThreadIsCreated(core: Core, context: Context, fd: int, payload: string, o: Oracle, title: string, body: string,
                                           i: nat, j: nat)
    requires CoreOk(core) && fd in core.byFd && IsUuid(o.uuid) && HoldsThread(payload, title, body)
    requires InChannel(core, core.byFd[fd], context, i, j) && context.thread == ""
    requires var threads := core.teams[i].channels[j].threads; forall k :: 0 <= k < |threads| ==> threads[k].title != title
    ensures var p, t, c := Packet(CMD_CREATE, payload), core.teams[i], core.teams[i].channels[j];
            var thread := Thread(o.uuid, core.byFd[fd], o.now, title, body, []);
            && CoreAfter(core, context, fd, p, o)
            == core.(teams := core.teams[i := t.(channels := t.channels[j := c.(threads := c.threads + [thread])])])
            && var replies := RepliesTo(core, context, fd, p, o);
            && |replies| == 1 && |replies[0].payload| == 626 && ReadThread(replies[0].payload) == thread
            && Confirmed(core, context, fd, p, o, replies[0].payload, EVT_THREAD_CREATED, SubscriberFds(core, t))
  {
    hide Exec, StoreOk, IsUuid, CString, Resolve, Authenticated, ReadThread, ReadReply;
    ExecCases(core, context, fd, payload, o);
    MeFits(core, fd);
    UuidFits(o.uuid);
    NamedIsChain(core, core.byFd[fd], context, i, j, 0);
    NamedIsResolved(core, core.byFd[fd], context, i, j, 0);
    var thread := Thread(o.uuid, core.byFd[fd], o.now, title, body, []);
    assert MakeThread(o.uuid, core.byFd[fd], o.now, title, body) == thread;
    ThreadIsShown(thread);
    assert ThreadRequest(payload) == Some((title, body));
    assert context.(thread := "") == context;
    AnsweredAndTold(core, context, fd, Packet(CMD_CREATE, payload), o, Packet(RPL_CREATED, ThreadPayload(thread)),
                    SubscriberFds(core, core.teams[i]), Packet(EVT_THREAD_CREATED, ThreadPayload(thread)));
  }

  // ---- Replies ----

  predicate HoldsReply(payload: string, body: string) {
    |payload| == BODY_LENGTH && body != "" && Holds(payload, body)
  }

  /** The event of a reply. */
  predicate CarriesReply(e: Packet, team: string, thread: string, author: string, body: string) {
    && e.code == EVT_REPLY_CREATED && |e.payload| == 623
    && Field(e.payload, 0, UUID_LENGTH) == team && Field(e.payload, 37, UUID_LENGTH) == thread
    && Field(e.payload, 74, UUID_LENGTH) == author && Field(e.payload, 111, BODY_LENGTH) == body
  }

  /** In a thread: one more reply in that thread, by the requester, at the time, worded as asked, to nobody in particular. */
  lemma {:induction false} ReplyIsCreated(core: Core, context: Context, fd: int, payload: string, o: Oracle, body: string, i: nat, j: nat, k: nat)
    requires CoreOk(core) && fd in core.byFd && IsUuid(o.uuid) && HoldsReply(payload, body)
    requires InThread(core, core.byFd[fd], context, i, j, k)
    ensures var p, t, c := Packet(CMD_CREATE, payload), core.teams[i], core.teams[i].channels[j];
            var thread := c.threads[k];
            var reply := Message(o.uuid, core.byFd[fd], "", o.now, body);
            && CoreAfter(core, context, fd, p, o)
            == core.(teams := core.teams[i := t.(channels := t.channels[j := c.(threads := c.threads[k := thread.(replies := thread.replies + [reply])])])])
            && Exec(core, context, fd, p, o).context.None?
            && var replies := RepliesTo(core, context, fd, p, o);
            && |replies| == 1 && replies[0].code == RPL_CREATED && |replies[0].payload| == 594
            && ReadReply(replies[0].payload) == (thread.uuid, core.byFd[fd], o.now, body)
            && forall f :: if f in SubscriberFds(core, t)
                           then && |EventsTo(core, context, fd, p, o, f)| == 1
                                && CarriesReply(EventsTo(core, context, fd, p, o, f)[0], t.uuid, thread.uuid, core.byFd[fd], body)
                           else EventsTo(core, context, fd, p, o, f) == []
  {
    hide Exec, StoreOk, IsUuid, CString, Resolve, Authenticated, ReadThread, ReadReply;
    var t, thread := core.teams[i], core.teams[i].channels[j].threads[k];
    ExecCases(core, context, fd, payload, o);
    MeFits(core, fd);
    UuidFits(o.uuid);
    NamedIsChain(core, core.byFd[fd], context, i, j, k);
    NamedIsResolved(core, core.byFd[fd], context, i, j, k);
    TeamNamed(core, i);
    ThreadNamed(core, i, j, k);
    var reply := Message(o.uuid, core.byFd[fd], "", o.now, body);
    assert MakeMessage(o.uuid, core.byFd[fd], o.now, body, "") == reply;
    ReplyIsShown(thread.uuid, reply);
    ReplyEventIsShown(t.uuid, thread.uuid, reply);
    assert ReplyRequest(payload) == Some(body);
    AnsweredAndTold(core, context, fd, Packet(CMD_CREATE, payload), o, Packet(RPL_CREATED, ReplyPayload(thread.uuid, reply)),
                    SubscriberFds(core, t), ReplyEvent(t.uuid, thread.uuid, reply));
  }

  // ---- Refusals ----

  /** The payload is not what this target asks for. */
  predicate Unfit(target: CreateTarget, payload: string) {
    match target
    case MakesReply => |payload| != BODY_LENGTH || NUL !in payload || CString(payload) == ""
    case MakesThread =>
      || |payload| != NAME_LENGTH + BODY_LENGTH || NUL !in payload[..NAME_LENGTH] || NUL !in payload[NAME_LENGTH..]
      || CString(payload[..NAME_LENGTH]) == "" || CString(payload[NAME_LENGTH..]) == ""
    case _ =>
      || |payload| != NAME_LENGTH + DESCRIPTION_LENGTH || NUL !in payload[..NAME_LENGTH] || NUL !in payload[NAME_LENGTH..]
      || CString(payload[..NAME_LENGTH]) == ""
  }

  lemma {:induction false} UnfitRequests(payload: string)
    ensures NamedRequest(payload).None? <==> Unfit(MakesTeam, payload)
    ensures NamedRequest(payload).None? <==> Unfit(MakesChannel, payload)
    ensures ThreadRequest(payload).None? <==> Unfit(MakesThread, payload)
    ensures ReplyRequest(payload).None? <==> Unfit(MakesReply, payload)
  {
    hide CString;
  }

  /** What a context asks to be created, by how far it goes. */
  function LevelOf(c: Context): CreateTarget {
    if c.team == "" then MakesTeam else if c.channel == "" then MakesChannel else if c.thread == "" then MakesThread else MakesReply
  }

  lemma {:induction false} CreateRefused(core: Core, context: Context, fd: int, payload: string, o: Oracle)
    requires CoreOk(core)
    ensures var p := Packet(CMD_CREATE, payload);
            && (fd !in core.byFd ==> TurnsDown(core, context, fd, p, o, ERR_UNAUTHORIZED))
            && (fd in core.byFd && !IsContextChain(context) ==> TurnsDown(core, context, fd, p, o, ERR_BAD_REQUEST))
            && (fd in core.byFd && IsContextChain(context) && Unfit(LevelOf(context), payload) ==> TurnsDown(core, context, fd, p, o, ERR_BAD_REQUEST))
  {
    hide Exec, TurnsDown, StoreOk, Unfit, Authenticated, CreateTeam, CreateChannel, CreateThread, CreateReply;
    ExecCases(core, context, fd, payload, o);
    if fd !in core.byFd {
      NobodyHere(core, fd);
      TurnedAway(core, context, fd, Packet(CMD_CREATE, payload), o, ERR_UNAUTHORIZED);
    } else {
      MeFits(core, fd);
      if !IsContextChain(context) || Unfit(LevelOf(context), payload) {
        UnfitCreations(core, core.users[Authenticated(core, fd).value], context, fd, payload, o);
        TurnedAway(core, context, fd, Packet(CMD_CREATE, payload), o, ERR_BAD_REQUEST);
      }
    }
  }

  lemma {:induction false} UnfitCreations(core: Core, me: User, context: Context, fd: int, payload: string, o: Oracle)
    ensures Unfit(MakesTeam, payload) ==> CreateTeam(core, me, fd, payload, o) == Refuse(core, fd, ERR_BAD_REQUEST)
    ensures Unfit(MakesChannel, payload) ==> CreateChannel(core, me, context, fd, payload, o) == Refuse(core, fd, ERR_BAD_REQUEST)
    ensures Unfit(MakesThread, payload) ==> CreateThread(core, me, context, fd, payload, o) == Refuse(core, fd, ERR_BAD_REQUEST)
    ensures Unfit(MakesReply, payload) ==> CreateReply(core, me, context, fd, payload, o) == Refuse(core, fd, ERR_BAD_REQUEST)
  {
    hide Unfit, NamedRequest, ThreadRequest, ReplyRequest, Resolve, FindTeam;
    UnfitRequests(payload);
  }

  /** A context whose objects are gone, or whose team the user does not subscribe to. */
  lemma {:induction false} CreateUnresolved(core: Core, context: Context, fd: int, payload: string, o: Oracle, status: nat)
    requires CoreOk(core) && fd in core.byFd && IsContextChain(context) && !Unfit(LevelOf(context), payload)
    requires var upTo := if LevelOf(context) == MakesReply then context else context.(thread := "");
             Unresolved(core, core.byFd[fd], upTo, status)
    ensures TurnsDown(core, context, fd, Packet(CMD_CREATE, payload), o, status)
  {
    hide Exec, TurnsDown, StoreOk, CString;
    ExecCases(core, context, fd, payload, o);
    MeFits(core, fd);
    var upTo := if LevelOf(context) == MakesReply then context else context.(thread := "");
    UnresolvedIsMissing(core, core.byFd[fd], upTo, status);
    TurnedAway(core, context, fd, Packet(CMD_CREATE, payload), o, status);
  }

  /** A name or title that is taken where the object would go. */
  lemma {:induction false} NameTaken(core: Core, context: Context, fd: int, payload: string, o: Oracle, i: nat, j: nat, k: nat)
    requires CoreOk(core) && fd in core.byFd && IsContextChain(context) && !Unfit(LevelOf(context), payload)
    requires match LevelOf(context)
             case MakesTeam => i < |core.teams| && Holds(payload[..NAME_LENGTH], core.teams[i].name)
             case MakesChannel =>
               && InTeam(core, core.byFd[fd], context, i) && j < |core.teams[i].channels|
               && Holds(payload[..NAME_LENGTH], core.teams[i].channels[j].name)
             case MakesThread =>
               && InChannel(core, core.byFd[fd], context, i, j) && k < |core.teams[i].channels[j].threads|
               && Holds(payload[..NAME_LENGTH], core.teams[i].channels[j].threads[k].title)
             case MakesReply => false
    ensures TurnsDown(core, context, fd, Packet(CMD_CREATE, payload), o, ERR_ALREADY_EXIST)
  {
    hide Exec, TurnsDown, StoreOk, CString;
    ExecCases(core, context, fd, payload, o);
    MeFits(core, fd);
    NamedIsResolved(core, core.byFd[fd], context, i, j, k);
    if LevelOf(context) != MakesTeam {
      TeamFound(core, i);
    }
    assert context.thread == "" ==> context.(thread := "") == context;
    TurnedAway(core, context, fd, Packet(CMD_CREATE, payload), o, ERR_ALREADY_EXIST);
  }
}
